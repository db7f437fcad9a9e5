/**
  providerkit/filestore.go: Save as the file-system calls it makes, a crash after any of them, and
  what Load then finds.
 */
module FileStores {
  import opened Machines

  /** The bytes of one file: none, a proper part of an encoded snapshot, or all of it. */
  datatype Content<T> = Nothing | Cut | Whole(snap: T)

  /**
    A directory and its files. `versions` are the directory states that may be found after a power
    loss, oldest first, the current one last; a file's content survives one only if it was synced.
   */
  datatype Fs<T> = Fs(
    versions: seq<map<string, nat>>,
    data: map<nat, Content<T>>,
    synced: set<nat>)
  {
    predicate Valid() {
      |versions| > 0
    }

    function Dir(): map<string, nat>
      requires Valid()
    {
      versions[|versions| - 1]
    }
  }

  datatype LoadResult<T> = FirstBoot | Loaded(snap: T) | Undecodable | Unreadable

  function LoadIn<T>(dir: map<string, nat>, data: map<nat, Content<T>>, path: string): LoadResult<T> {
    if path !in dir then FirstBoot
    else if dir[path] !in data then Unreadable
    else
      match data[dir[path]]
      case Nothing => FirstBoot
      case Cut => Undecodable
      case Whole(s) => Loaded(s)
  }

  function Load<T>(fs: Fs<T>, path: string): LoadResult<T>
    requires fs.Valid()
  {
    LoadIn(fs.Dir(), fs.data, path)
  }

  /* ---- the calls ---- */

  function WithDir<T>(fs: Fs<T>, dir: map<string, nat>): Fs<T> {
    fs.(versions := fs.versions + [dir])
  }

  function CreateTemp<T>(fs: Fs<T>, tmp: string, n: nat): Fs<T>
    requires fs.Valid()
  {
    WithDir(fs, fs.Dir()[tmp := n]).(data := fs.data[n := Nothing])
  }

  function WriteTo<T>(fs: Fs<T>, n: nat, c: Content<T>): (r: Fs<T>)
    ensures fs.Valid() ==> r.Valid()
  {
    fs.(data := fs.data[n := c], synced := fs.synced - {n})
  }

  function Sync<T>(fs: Fs<T>, n: nat): Fs<T> {
    fs.(synced := fs.synced + {n})
  }

  function Rename<T>(fs: Fs<T>, tmp: string, path: string): Fs<T>
    requires fs.Valid()
  {
    if tmp in fs.Dir() then WithDir(fs, (fs.Dir() - {tmp})[path := fs.Dir()[tmp]]) else fs
  }

  function SyncDir<T>(fs: Fs<T>): Fs<T>
    requires fs.Valid()
  {
    fs.(versions := [fs.Dir()])
  }

  function Remove<T>(fs: Fs<T>, tmp: string): Fs<T>
    requires fs.Valid()
  {
    if tmp in fs.Dir() then WithDir(fs, fs.Dir() - {tmp}) else fs
  }

  /* ---- crashes ---- */

  /** Killing the process keeps the page cache. */
  ghost predicate AfterKill<T(!new)>(fs: Fs<T>, after: Fs<T>) {
    after == fs
  }

  /** Losing power keeps some version of the directory, and of unsynced files anything at all. */
  ghost predicate AfterPowerLoss<T(!new)>(fs: Fs<T>, after: Fs<T>) {
    && (exists k :: 0 <= k < |fs.versions| && after.versions == [fs.versions[k]])
    && after.data.Keys == fs.data.Keys
    && after.synced == fs.data.Keys
    && forall n :: n in fs.synced && n in fs.data ==> after.data[n] == fs.data[n]
  }

  /* ---- Save ---- */

  /** How far a Save got: `c` is what has been written so far, `error` that it gave up there and cleaned up. */
  datatype Stage<T> =
    | Untouched
    | Created
    | Writing(c: Content<T>)
    | Synced
    | Renamed
    | DirSynced
    | Abandoned(c: Content<T>, fsynced: bool)

  function At<T>(fs: Fs<T>, path: string, tmp: string, n: nat, snap: T, stage: Stage<T>): (r: Fs<T>)
    requires fs.Valid()
    ensures r.Valid()
  {
    var created := CreateTemp(fs, tmp, n);
    var full := Sync(WriteTo(created, n, Whole(snap)), n);
    match stage
    case Untouched => fs
    case Created => created
    case Writing(c) => WriteTo(created, n, c)
    case Synced => full
    case Renamed => Rename(full, tmp, path)
    case DirSynced => SyncDir(Rename(full, tmp, path))
    case Abandoned(c, fsynced) => Remove(if fsynced then full else WriteTo(created, n, c), tmp)
  }

  /** The temporary file CreateTemp picks is a new one. */
  predicate Fresh<T>(fs: Fs<T>, path: string, tmp: string, n: nat)
    requires fs.Valid()
  {
    tmp !in fs.Dir() && tmp != path && n !in fs.data && n !in fs.synced
  }

  ghost predicate IsStage<T(!new)>(fs: Fs<T>, path: string, tmp: string, n: nat, snap: T, now: Fs<T>)
    requires fs.Valid()
  {
    exists stage :: now == At(fs, path, tmp, n, snap, stage)
  }

  lemma Stages<T(!new)>(fs: Fs<T>, path: string, tmp: string, n: nat, snap: T, partial: Content<T>)
    requires fs.Valid() && Fresh(fs, path, tmp, n)
    ensures At(fs, path, tmp, n, snap, Untouched) == fs
    ensures At(fs, path, tmp, n, snap, Created) == CreateTemp(fs, tmp, n)
    ensures At(fs, path, tmp, n, snap, Writing(partial)) == WriteTo(At(fs, path, tmp, n, snap, Created), n, partial)
    ensures At(fs, path, tmp, n, snap, Writing(Cut)) == WriteTo(At(fs, path, tmp, n, snap, Created), n, Cut)
    ensures At(fs, path, tmp, n, snap, Abandoned(partial, false)) ==
              Remove(At(fs, path, tmp, n, snap, Writing(partial)), tmp)
    ensures At(fs, path, tmp, n, snap, Writing(Whole(snap))) ==
              WriteTo(At(fs, path, tmp, n, snap, Created), n, Whole(snap))
    ensures At(fs, path, tmp, n, snap, Abandoned(Whole(snap), false)) ==
              Remove(At(fs, path, tmp, n, snap, Writing(Whole(snap))), tmp)
    ensures At(fs, path, tmp, n, snap, Synced) == Sync(At(fs, path, tmp, n, snap, Writing(Whole(snap))), n)
    ensures At(fs, path, tmp, n, snap, Abandoned(Whole(snap), true)) == Remove(At(fs, path, tmp, n, snap, Synced), tmp)
    ensures At(fs, path, tmp, n, snap, Renamed) == Rename(At(fs, path, tmp, n, snap, Synced), tmp, path)
    ensures At(fs, path, tmp, n, snap, DirSynced) == SyncDir(At(fs, path, tmp, n, snap, Renamed))
    ensures Remove(At(fs, path, tmp, n, snap, Renamed), tmp) == At(fs, path, tmp, n, snap, Renamed)
    ensures Remove(At(fs, path, tmp, n, snap, DirSynced), tmp) == At(fs, path, tmp, n, snap, DirSynced)
  {
  }

  /** No temporary file is left behind, and no directory entry but the store's own is another. */
  ghost predicate Tidy<T(!new)>(fs: Fs<T>, after: Fs<T>, path: string, tmp: string) {
    && fs.Valid() && after.Valid() && tmp !in after.Dir()
    && (forall name :: name != path ==> (name in after.Dir() <==> name in fs.Dir()))
    && (forall name :: name != path && name in fs.Dir() ==> after.Dir()[name] == fs.Dir()[name])
  }

  /** A Save that ends, however it ends, leaves the directory tidy. */
  lemma EndsTidy<T(!new)>(fs: Fs<T>, path: string, tmp: string, n: nat, snap: T)
    requires fs.Valid() && Fresh(fs, path, tmp, n)
    ensures forall stage: Stage<T> :: stage.Untouched? || stage.Abandoned? || stage.Renamed? || stage.DirSynced? ==>
              Tidy(fs, At(fs, path, tmp, n, snap, stage), path, tmp)
  {
  }

  /** One file-system call. */
  datatype Call<T> =
    | CreateCall(tmp: string, n: nat)
    | WriteCall(n: nat, c: Content<T>)
    | SyncCall(n: nat)
    | RenameCall(tmp: string, path: string)
    | SyncDirCall
    | RemoveCall(tmp: string)

  function Called<T>(fs: Fs<T>, call: Call<T>): Fs<T>
    requires fs.Valid()
  {
    match call
    case CreateCall(tmp, n) => CreateTemp(fs, tmp, n)
    case WriteCall(n, c) => WriteTo(fs, n, c)
    case SyncCall(n) => Sync(fs, n)
    case RenameCall(tmp, path) => Rename(fs, tmp, path)
    case SyncDirCall => SyncDir(fs)
    case RemoveCall(tmp) => Remove(fs, tmp)
  }

  /** The states a crash may interrupt: each is the one before it after a single call. */
  ghost predicate Logged<T(!new)>(log: seq<Fs<T>>, calls: seq<Call<T>>, fs: Fs<T>) {
    && |log| == |calls| + 1 && log[|calls|] == fs
    && (forall i :: 0 <= i < |log| ==> log[i].Valid())
    && forall i :: 0 <= i < |calls| ==> log[i + 1] == Called(log[i], calls[i])
  }

  /** The file system, with a log of every state it goes through. */
  class Disk<T(!new)> {
    var fs: Fs<T>
    ghost var log: seq<Fs<T>>
    ghost var calls: seq<Call<T>>

    ghost predicate Valid()
      reads this
    {
      Logged(log, calls, fs) && fs.Valid()
    }

    constructor (fs: Fs<T>)
      requires fs.Valid()
      ensures Valid() && this.fs == fs && log == [fs]
    {
      this.fs, log, calls := fs, [fs], [];
    }

    method Perform(call: Call<T>)
      requires Valid()
      modifies this
      ensures Valid() && fs == Called(old(fs), call) && log == old(log) + [fs]
    {
      hide Called;
      fs := Called(fs, call);
      CalledIsValid(old(fs), call);
      log, calls := log + [fs], calls + [call];
    }

    /** A write fills the file bit by bit: all of it goes through a part of it. */
    method Write(n: nat, c: Content<T>)
      requires Valid()
      modifies this
      ensures Valid() && fs == WriteTo(old(fs), n, c)
      ensures log == if c.Whole? then old(log) + [WriteTo(old(fs), n, Cut), fs] else old(log) + [fs]
    {
      if c.Whole? {
        Perform(WriteCall(n, Cut));
      }
      Perform(WriteCall(n, c));
      assert WriteTo(WriteTo(old(fs), n, Cut), n, c) == WriteTo(old(fs), n, c);
    }
  }

  lemma CalledIsValid<T(!new)>(fs: Fs<T>, call: Call<T>)
    requires fs.Valid()
    ensures Called(fs, call).Valid()
  {
  }

  /** Every state the log gained since it held `from` entries is a stage of this save. */
  ghost predicate OnlyStages<T(!new)>(fs: Fs<T>, path: string, tmp: string, n: nat, snap: T, log: seq<Fs<T>>, from: nat)
    requires fs.Valid()
  {
    forall i :: from <= i < |log| ==> IsStage(fs, path, tmp, n, snap, log[i])
  }

  lemma OneStageMore<T(!new)>(fs: Fs<T>, path: string, tmp: string, n: nat, snap: T, log: seq<Fs<T>>, from: nat,
      stage: Stage<T>, now: Fs<T>)
    requires fs.Valid() && OnlyStages(fs, path, tmp, n, snap, log, from) && now == At(fs, path, tmp, n, snap, stage)
    ensures OnlyStages(fs, path, tmp, n, snap, log + [now], from)
  {
    hide At;
  }

  class FileStore<T(!new)> {
    const path: string
    const disk: Disk<T>

    constructor (path: string, disk: Disk<T>)
      ensures this.path == path && this.disk == disk
    {
      this.path, this.disk := path, disk;
    }

    /**
      One Save. `plan` says which calls fail and `partial` what a failing write leaves behind. The log
      grows by one state per call, the torn one in the middle of the write included, all of them stages.
     */
    method Save(snap: T, plan: seq<bool>, partial: Content<T>, tmp: string, n: nat)
      returns (ok: bool, ghost stage: Stage<T>)
      requires disk.Valid() && |plan| == 7 && Fresh(disk.fs, path, tmp, n)
      modifies disk
      ensures disk.Valid() && disk.fs == At(old(disk.fs), path, tmp, n, snap, stage)
      ensures ok <==> stage == Renamed || stage == DirSynced
      ensures ok <==> !plan[0] && !plan[1] && !plan[2] && !plan[3] && !plan[4]
      ensures stage == DirSynced <==> ok && !plan[5] && !plan[6]
      ensures Tidy(old(disk.fs), disk.fs, path, tmp)
      ensures old(disk.log) <= disk.log && OnlyStages(old(disk.fs), path, tmp, n, snap, disk.log, |old(disk.log)|)
    {
      hide At, CreateTemp, WriteTo, Sync, Rename, SyncDir, Remove, Fresh, OnlyStages, Logged, Tidy;
      ghost var before, from := disk.fs, |disk.log|;
      Stages(disk.fs, path, tmp, n, snap, partial);
      NoStageYet(before, path, tmp, n, snap, disk.log);
      EndsTidy(before, path, tmp, n, snap);
      ok, stage := false, Untouched;
      if plan[0] {
        return;
      }
      Record(CreateCall(tmp, n), Created, before, from, snap, tmp, n);
      stage := Created;
      if plan[1] {
        Record(WriteCall(n, partial), Writing(partial), before, from, snap, tmp, n);
        Record(RemoveCall(tmp), Abandoned(partial, false), before, from, snap, tmp, n);
        stage := Abandoned(partial, false);
        return;
      }
      OneStageMore(before, path, tmp, n, snap, disk.log, from, Writing(Cut), WriteTo(disk.fs, n, Cut));
      OneStageMore(before, path, tmp, n, snap, disk.log + [WriteTo(disk.fs, n, Cut)], from, Writing(Whole(snap)),
                   WriteTo(disk.fs, n, Whole(snap)));
      assert disk.log + [WriteTo(disk.fs, n, Cut)] + [WriteTo(disk.fs, n, Whole(snap))]
             == disk.log + [WriteTo(disk.fs, n, Cut), WriteTo(disk.fs, n, Whole(snap))];
      disk.Write(n, Whole(snap));
      stage := Writing(Whole(snap));
      if plan[2] {
        Record(RemoveCall(tmp), Abandoned(Whole(snap), false), before, from, snap, tmp, n);
        stage := Abandoned(Whole(snap), false);
        return;
      }
      Record(SyncCall(n), Synced, before, from, snap, tmp, n);
      stage := Synced;
      if plan[3] || plan[4] {                 // close, rename
        Record(RemoveCall(tmp), Abandoned(Whole(snap), true), before, from, snap, tmp, n);
        stage := Abandoned(Whole(snap), true);
        return;
      }
      Record(RenameCall(tmp, path), Renamed, before, from, snap, tmp, n);
      ok, stage := true, Renamed;
      if !plan[5] && !plan[6] {               // open and sync the directory, best effort
        Record(SyncDirCall, DirSynced, before, from, snap, tmp, n);
        stage := DirSynced;
      }
      Record(RemoveCall(tmp), stage, before, from, snap, tmp, n);      // the deferred removal finds nothing
    }

    /** One call of a save, which brings it to the given stage. */
    method Record(call: Call<T>, ghost stage: Stage<T>, ghost before: Fs<T>, ghost from: nat, ghost snap: T,
        ghost tmp: string, ghost n: nat)
      requires disk.Valid() && before.Valid()
      requires Called(disk.fs, call) == At(before, path, tmp, n, snap, stage)
      requires OnlyStages(before, path, tmp, n, snap, disk.log, from)
      modifies disk
      ensures disk.Valid() && disk.fs == At(before, path, tmp, n, snap, stage)
      ensures disk.log == old(disk.log) + [disk.fs] && OnlyStages(before, path, tmp, n, snap, disk.log, from)
    {
      hide Called, At, OnlyStages;
      OneStageMore(before, path, tmp, n, snap, disk.log, from, stage, Called(disk.fs, call));
      disk.Perform(call);
    }
  }

  lemma NoStageYet<T(!new)>(fs: Fs<T>, path: string, tmp: string, n: nat, snap: T, log: seq<Fs<T>>)
    requires fs.Valid()
    ensures OnlyStages(fs, path, tmp, n, snap, log, |log|)
  {
  }

  /* ---- what a crash can leave ---- */

  /** In every directory version that may come back, the store file is absent or whole and synced. */
  ghost predicate Sound<T(!new)>(fs: Fs<T>, path: string) {
    fs.Valid() && forall k :: 0 <= k < |fs.versions| ==> SoundIn(fs, fs.versions[k], path)
  }

  predicate SoundIn<T>(fs: Fs<T>, dir: map<string, nat>, path: string) {
    path in dir ==> dir[path] in fs.data && dir[path] in fs.synced && fs.data[dir[path]].Whole?
  }

  /** What a Load after a power loss may give. */
  ghost predicate MayFind<T(!new)>(fs: Fs<T>, path: string, r: LoadResult<T>) {
    exists k :: 0 <= k < |fs.versions| && LoadIn(fs.versions[k], fs.data, path) == r
  }

  /** The directory versions a stage adds hold the old store file or, once renamed, the new one. */
  lemma StageVersions<T(!new)>(fs: Fs<T>, path: string, tmp: string, n: nat, snap: T, stage: Stage<T>, k: nat)
    requires Sound(fs, path) && Fresh(fs, path, tmp, n)
    requires k < |At(fs, path, tmp, n, snap, stage).versions|
    ensures var now := At(fs, path, tmp, n, snap, stage);
            && SoundIn(now, now.versions[k], path)
            && (LoadIn(now.versions[k], now.data, path) == Loaded(snap)
                || exists j :: 0 <= j < |fs.versions|
                     && LoadIn(fs.versions[j], fs.data, path) == LoadIn(now.versions[k], now.data, path))
  {
    var now := At(fs, path, tmp, n, snap, stage);
    var last := |fs.versions| - 1;
    assert SoundIn(fs, fs.versions[last], path);
    if k < |fs.versions| && stage != DirSynced {
      assert now.versions[k] == fs.versions[k] && SoundIn(fs, fs.versions[k], path);
      assert LoadIn(fs.versions[k], fs.data, path) == LoadIn(now.versions[k], now.data, path);
    } else if now.versions[k] == fs.versions[last][tmp := n] || now.versions[k] == fs.versions[last][tmp := n] - {tmp} {
      assert LoadIn(fs.versions[last], fs.data, path) == LoadIn(now.versions[k], now.data, path);
    }
  }

  /**
    A crash at any point of a Save, process or machine: what Load then finds is what could be found
    before the Save, or the new snapshot, never a torn file; and the next Save starts from as sound a state.
   */
  lemma CrashLeavesOldOrNew<T(!new)>(fs: Fs<T>, path: string, tmp: string, n: nat, snap: T, stage: Stage<T>,
      after: Fs<T>)
    requires Sound(fs, path) && Fresh(fs, path, tmp, n)
    requires var now := At(fs, path, tmp, n, snap, stage); AfterKill(now, after) || AfterPowerLoss(now, after)
    ensures Sound(after, path)
    ensures Load(after, path) == Loaded(snap) || MayFind(fs, path, Load(after, path))
    ensures !Load(after, path).Undecodable? && !Load(after, path).Unreadable?
  {
    hide At, Fresh;
    var now := At(fs, path, tmp, n, snap, stage);
    forall k | 0 <= k < |now.versions|
      ensures SoundIn(now, now.versions[k], path)
      ensures var r := LoadIn(now.versions[k], now.data, path); r == Loaded(snap) || MayFind(fs, path, r)
    {
      StageVersions(fs, path, tmp, n, snap, stage, k);
    }
    if AfterPowerLoss(now, after) {
      var k :| 0 <= k < |now.versions| && after.versions == [now.versions[k]];
      assert SoundIn(now, now.versions[k], path);
      assert LoadIn(now.versions[k], now.data, path) == Load(after, path);
      assert SoundIn(after, after.versions[0], path);
    } else {
      assert SoundIn(now, now.versions[|now.versions| - 1], path);
    }
  }

  /** The same of whatever state a Save's log holds when the crash comes. */
  lemma CrashDuringSave<T(!new)>(fs: Fs<T>, path: string, tmp: string, n: nat, snap: T, log: seq<Fs<T>>, from: nat,
      i: nat, after: Fs<T>)
    requires Sound(fs, path) && Fresh(fs, path, tmp, n) && OnlyStages(fs, path, tmp, n, snap, log, from)
    requires from <= i < |log| && (AfterKill(log[i], after) || AfterPowerLoss(log[i], after))
    ensures Sound(after, path)
    ensures Load(after, path) == Loaded(snap) || MayFind(fs, path, Load(after, path))
    ensures !Load(after, path).Undecodable? && !Load(after, path).Unreadable?
  {
    hide Fresh, At, Load, MayFind, AfterPowerLoss;
    assert IsStage(fs, path, tmp, n, snap, log[i]);
    var stage :| log[i] == At(fs, path, tmp, n, snap, stage);
    CrashLeavesOldOrNew(fs, path, tmp, n, snap, stage, after);
  }

  /** While the process lives, Load sees the old snapshot until the rename and the new one from then on. */
  lemma RenameIsTheSwitch<T(!new)>(fs: Fs<T>, path: string, tmp: string, n: nat, snap: T, stage: Stage<T>)
    requires Sound(fs, path) && Fresh(fs, path, tmp, n)
    ensures Load(At(fs, path, tmp, n, snap, stage), path) ==
              if stage == Renamed || stage == DirSynced then Loaded(snap) else Load(fs, path)
  {
    assert SoundIn(fs, fs.versions[|fs.versions| - 1], path);
  }

  /**
    A Save that returned without error survives every power loss exactly when its best-effort
    directory sync went through, or nothing else could have been found before it.
   */
  lemma DurableExactlyWhen<T(!new)>(fs: Fs<T>, path: string, tmp: string, n: nat, snap: T, stage: Stage<T>)
    requires Sound(fs, path) && Fresh(fs, path, tmp, n) && (stage == Renamed || stage == DirSynced)
    ensures (forall after :: AfterPowerLoss(At(fs, path, tmp, n, snap, stage), after) ==>
              Load(after, path) == Loaded(snap))
            <==> stage == DirSynced || forall r :: MayFind(fs, path, r) ==> r == Loaded(snap)
  {
    var now := At(fs, path, tmp, n, snap, stage);
    forall after | AfterPowerLoss(now, after)
      ensures Load(after, path) == Loaded(snap) || (stage == Renamed && MayFind(fs, path, Load(after, path)))
    {
      CrashLeavesOldOrNew(fs, path, tmp, n, snap, stage, after);
      if stage == DirSynced {
        RenameIsTheSwitch(fs, path, tmp, n, snap, stage);
      }
    }
    if stage == Renamed {
      forall r | MayFind(fs, path, r)
        ensures exists after :: AfterPowerLoss(now, after) && Load(after, path) == r
      {
        var k :| 0 <= k < |fs.versions| && LoadIn(fs.versions[k], fs.data, path) == r;
        var after := Fs([fs.versions[k]], now.data, now.data.Keys);
        assert SoundIn(fs, fs.versions[k], path);
        assert now.versions[k] == fs.versions[k];
        assert AfterPowerLoss(now, after) && Load(after, path) == r;
      }
    }
  }

  /** It does not always: the first save of a new store, its directory not synced, may be gone with the power. */
  lemma FirstSaveMayVanish<T(!new)>(path: string, tmp: string, snap: T)
    requires tmp != path
    ensures var fs := Fs([map[]], map[], {});
            var now := At(fs, path, tmp, 0, snap, Renamed);
            && Sound(fs, path) && Fresh(fs, path, tmp, 0) && Load(now, path) == Loaded(snap)
            && exists after :: AfterPowerLoss(now, after) && Load(after, path) == FirstBoot
  {
    var fs: Fs<T> := Fs([map[]], map[], {});
    var now := At(fs, path, tmp, 0, snap, Renamed);
    var after := Fs([map[]], now.data, now.data.Keys);
    assert now.versions[0] == map[];
    assert AfterPowerLoss(now, after) && Load(after, path) == FirstBoot;
  }

  /** The fsync before the rename is needed: without it a power loss may leave a file Load cannot decode. */
  lemma WithoutFsyncMayTear<T(!new)>(fs: Fs<T>, path: string, tmp: string, n: nat, snap: T)
    requires fs.Valid() && Fresh(fs, path, tmp, n)
    ensures var hasty := Rename(WriteTo(CreateTemp(fs, tmp, n), n, Whole(snap)), tmp, path);
            exists after :: AfterPowerLoss(hasty, after) && Load(after, path) == Undecodable
  {
    var hasty := Rename(WriteTo(CreateTemp(fs, tmp, n), n, Whole(snap)), tmp, path);
    var after := Fs([hasty.versions[|hasty.versions| - 1]], hasty.data[n := Cut], hasty.data.Keys);
    assert AfterPowerLoss(hasty, after) && Load(after, path) == Undecodable;
  }

  /* ---- the names a snapshot is written with ---- */

  /** Encoding a state, a capacity type or an operation kind as its name loses nothing. */
  lemma NamesRoundTrip(s: State, c: CapacityType, k: Kind)
    ensures StateFromText(StateText(s)) == s && CapacityFromText(CapacityText(c)) == c && KindFromText(KindText(k)) == k
    ensures StateFromText("Speculative") == Speculative && StateFromText("Idle") == Idle
    ensures StateFromText("Creating") == Creating && StateFromText("Configuring") == Configuring
    ensures StateFromText("Configured") == Configured && StateFromText("Draining") == Draining
    ensures StateFromText("Deleting") == Deleting && StateFromText("Failed") == Failed
    ensures CapacityFromText("Spot") == Spot && CapacityFromText("OnDemand") == OnDemand
    ensures CapacityFromText("Reserved") == Reserved && CapacityFromText("BareMetal") == BareMetal
    ensures KindFromText("create") == Create && KindFromText("configure") == Configure
    ensures KindFromText("drain") == Drain && KindFromText("delete") == Delete
  {
  }
}
