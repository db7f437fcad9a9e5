/**
  server.go's Server: the state under the lock, updated in place. Every method is one critical
  section; its contract equates the new state and the reply with the functions of Kit, and ties
  the store to memory, so a reply is never returned before what it promises is saved.
 */
module Servers {
  import opened Machines
  import opened Kit
  import opened Records
  import opened Store

  datatype Lookup = InvalidId | Missing | Found(machine: Machine)

  class Server {
    const cfg: Config
    const store: MemStore

    var machines: map<string, Machine>
    var fences: map<FenceKey, FenceMark>
    var ops: map<OpKey, OpId>
    var lastMod: map<string, nat>
    var rev: nat
    var nextOp: nat

    function Contents(): Mem
      reads this
    {
      Mem(Durable(machines, fences, ops, rev, nextOp), lastMod)
    }

    function Persisted(): Durable
      reads this, store
    {
      Decode(store.snap)
    }

    /** Between critical sections the store holds exactly the durable part of memory. */
    predicate Valid()
      reads this, store
    {
      Keyed(machines) && Persisted() == Contents().d
    }

    constructor (cfg: Config, store: MemStore)
      ensures this.cfg == cfg && this.store == store
      ensures Contents() == Mem(NO_RECORDS, map[])
    {
      this.cfg := cfg;
      this.store := store;
      machines, fences, ops, lastMod := map[], map[], map[], map[];
      rev, nextOp := 0, 0;
    }

    /* ---- startup: the rest of New ---- */

    /** Load the store; a fresh one is seeded from the backend's listing, any other is reloaded and recovered. */
    method Start(listing: seq<Instance>) returns (ok: bool)
      requires Contents() == Mem(NO_RECORDS, map[])
      requires Keyed(Decode(store.snap).machines)
      modifies this, store
      ensures ok <==> IsFresh(old(Persisted())) ==> Seedable(cfg, listing)
      ensures ok ==> Valid()
      ensures ok && IsFresh(old(Persisted())) ==> Contents() == Reconcile(cfg, Mem(NO_RECORDS, map[]), listing)
      ensures !IsFresh(old(Persisted())) ==> RecoveredTo(Loaded(old(Persisted())), Contents())
      ensures !ok ==> store.snap == old(store.snap)
    {
      var snap := store.Load();
      FreshSnapshot(snap);
      if |snap.machines| == 0 && |snap.fences| == 0 && |snap.ops| == 0 && snap.rev == 0 {
        ok := SeedFromBackend(listing);
      } else {
        LoadSnapshot(snap);
        RecoverInterrupted();
        ok := true;
      }
    }

    method SeedFromBackend(listing: seq<Instance>) returns (ok: bool)
      requires Contents() == Mem(NO_RECORDS, map[])
      modifies this, store
      ensures ok <==> Seedable(cfg, listing)
      ensures ok ==> Valid() && Contents() == Reconcile(cfg, Mem(NO_RECORDS, map[]), listing)
      ensures !ok ==> store.snap == old(store.snap)
    {
      ghost var empty := Mem(NO_RECORDS, map[]);
      var i := 0;
      while i < |listing|
        invariant 0 <= i <= |listing|
        invariant Contents() == Reconcile(cfg, empty, listing[..i]) && Seedable(cfg, listing[..i])
        invariant store.snap == old(store.snap)
      {
        var entry := listing[i];
        SeedStep(cfg, listing, i);
        if !entry.Valid(cfg.requireZone) {
          return false;
        }
        if entry.id in machines {
          return false;
        }
        rev := rev + 1;
        machines := machines[entry.id := entry.ToMachine()];
        lastMod := lastMod[entry.id := rev];
        i := i + 1;
      }
      assert listing[..i] == listing;
      SeededKeys(cfg, listing);
      PersistLocked();
      ok := true;
    }

    method LoadSnapshot(snap: Snapshot)
      requires Contents() == Mem(NO_RECORDS, map[])
      requires snap == store.snap && Keyed(Decode(snap).machines)
      modifies this
      ensures Valid() && Contents() == Loaded(Decode(snap))
    {
      rev := snap.rev;
      nextOp := snap.nextOp;
      LoadMachines(snap);
      LoadFences(snap);
      LoadOps(snap);
    }

    method LoadMachines(snap: Snapshot)
      requires machines == map[] && lastMod == map[]
      modifies this`machines, this`lastMod
      ensures machines == MachineMap(snap.machines) && lastMod == map id | id in machines :: snap.rev
    {
      var i := 0;
      while i < |snap.machines|
        invariant 0 <= i <= |snap.machines|
        invariant machines == MachineMap(snap.machines[..i])
        invariant lastMod == map id | id in machines :: snap.rev
      {
        assert snap.machines[..i + 1][..i] == snap.machines[..i];
        machines := machines[snap.machines[i].id := snap.machines[i]];
        lastMod := lastMod[snap.machines[i].id := snap.rev];
        i := i + 1;
      }
      assert snap.machines[..i] == snap.machines;
    }

    method LoadFences(snap: Snapshot)
      requires fences == map[]
      modifies this`fences
      ensures fences == FenceMap(snap.fences)
    {
      var i := 0;
      while i < |snap.fences|
        invariant 0 <= i <= |snap.fences|
        invariant fences == FenceMap(snap.fences[..i])
      {
        assert snap.fences[..i + 1][..i] == snap.fences[..i];
        var r := snap.fences[i];
        fences := fences[FenceKey(r.shard, r.machine) := FenceMark(r.epoch, r.sequence)];
        i := i + 1;
      }
      assert snap.fences[..i] == snap.fences;
    }

    method LoadOps(snap: Snapshot)
      requires ops == map[]
      modifies this`ops
      ensures ops == OpMap(snap.ops)
    {
      var i := 0;
      while i < |snap.ops|
        invariant 0 <= i <= |snap.ops|
        invariant ops == OpMap(snap.ops[..i])
      {
        assert snap.ops[..i + 1][..i] == snap.ops[..i];
        var r := snap.ops[i];
        ops := ops[OpKey(r.machine, KindFromText(r.kind)) := r.op];
        i := i + 1;
      }
      assert snap.ops[..i] == snap.ops;
    }

    method RecoverInterrupted()
      requires Valid() && lastMod.Keys == machines.Keys
      modifies this, store
      ensures Valid() && RecoveredTo(old(Contents()), Contents())
    {
      var changed := FailInterrupted();
      if changed {
        PersistLocked();
      }
    }

    /** Go ranges over the map in any order: the loop picks the next key freely. */
    method FailInterrupted() returns (changed: bool)
      requires Keyed(machines) && lastMod.Keys == machines.Keys
      modifies this
      ensures Keyed(machines) && RecoveredTo(old(Contents()), Contents())
      ensures !changed ==> Contents() == old(Contents())
    {
      hide Recovering, FailedSoFar, RecoveredTo, Interrupted;
      ghost var before := Contents();
      NothingFailed(before);
      var todo := machines.Keys;
      changed := false;
      while todo != {}
        invariant Recovering(before, Contents(), todo)
        invariant !changed ==> Contents() == before
      {
        var id :| id in todo;
        RecoverStep(before, Contents(), todo, id);
        todo := todo - {id};
        if IsTransitional(machines[id].state) {
          WriteLocked(id, Interrupted(machines[id]));
          changed := true;
        }
      }
      FullyRecovered(before, Contents());
    }

    /* ---- the four mutating RPCs share dispatch ---- */

    method CheckFenceLocked(id: string, f: Fence) returns (rejected: Option<FenceMark>, advanced: bool)
      modifies this`fences
      ensures match CheckFence(old(fences), id, f)
              case Stale(mark) => rejected == Some(mark) && !advanced && fences == old(fences)
              case Passed(next, token) => rejected == None && fences == next && advanced == token.Some?
    {
      if f.Zero() {
        return None, false;
      }
      var key := FenceKey(f.shard, id);
      if key in fences && !Newer(fences[key], f.Mark()) {
        return Some(fences[key]), false;
      }
      fences := fences[key := f.Mark()];
      return None, true;
    }

    method Dispatch(r: Request) returns (reply: Reply, launched: Option<Task>)
      requires Valid()
      modifies this, store
      ensures Valid()
      ensures var s := Kit.Dispatch(cfg, old(Contents()), r);
              Contents() == s.mem && s.reply == Some(reply) && s.launched == launched
    {
      if r.id == "" {
        return InvalidArgument, None;
      }
      if r.kind == Delete && !cfg.canDelete {
        return Unimplemented, None;
      }
      hide Admit;
      ghost var before := fences;
      var rejected, advanced := CheckFenceLocked(r.id, r.token);
      if rejected.Some? {
        return Fenced(rejected.value), None;
      }
      reply, launched := AdmitLocked(r, advanced, CheckFence(before, r.id, r.token).token);
    }

    /** dispatch after the fence: not found, retry, wrong position, or accept. */
    method AdmitLocked(r: Request, advanced: bool, ghost token: Option<Token>) returns (reply: Reply,
        launched: Option<Task>)
      requires Keyed(machines) && (!advanced ==> Valid()) && advanced == token.Some?
      modifies this, store
      ensures Valid()
      ensures var s := Admit(cfg, old(Contents()), token, r);
              Contents() == s.mem && s.reply == Some(reply) && s.launched == launched
    {
      if r.id !in machines {
        PersistIf(advanced);
        return NotFound, None;
      }
      var cur := machines[r.id];
      var key := OpKey(r.id, r.kind);
      if key in ops && AtOrHeadingTo(cur.state, r.kind) {
        PersistIf(advanced);
        return Ack(ops[key], cur), None;
      }
      if !CanStart(cur.state, r.kind) {
        PersistIf(advanced);
        return InvalidTransition(cur.state), None;
      }
      var op, rec := AcceptLocked(r);
      PersistLocked();
      return Ack(op, rec), Some(Task(op, r.kind, rec));
    }

    /** Mint and record the op, enter the transitional state, run Configure's pre-effect. */
    method AcceptLocked(r: Request) returns (op: OpId, rec: Machine)
      requires r.id in machines && Keyed(machines)
      modifies this`machines, this`ops, this`nextOp, this`rev, this`lastMod
      ensures op == OpId(cfg.prefix, old(nextOp) + 1) && rec == Entered(old(machines)[r.id], r)
      ensures nextOp == op.n && ops == old(ops)[OpKey(r.id, r.kind) := op]
      ensures machines == old(machines)[r.id := rec] && Keyed(machines)
      ensures rev == old(rev) + 1 && lastMod == old(lastMod)[r.id := old(rev) + 1]
    {
      nextOp := nextOp + 1;
      op := OpId(cfg.prefix, nextOp);
      ops := ops[OpKey(r.id, r.kind) := op];
      rec := machines[r.id].(state := Transitional(r.kind));
      if r.kind == Configure {
        rec := rec.(cluster := r.cluster, metadata := r.metadata);
      }
      machines := machines[r.id := rec];
      TouchLocked(r.id);
    }

    /** runTransition's second half, after the backend answered or the timeout fired. */
    method Complete(t: Task, res: BackendResult)
      requires Valid()
      modifies this, store
      ensures Valid() && Contents() == Kit.Complete(old(Contents()), t, res).mem
      ensures var id := t.machine.id;
              if id in old(machines) && old(machines)[id].state == Transitional(t.kind)
              then id in machines && SettledAs(old(machines)[id], machines[id], t.kind, res)
                   && machines == old(machines)[id := machines[id]] && lastMod[id] == rev == old(rev) + 1
              else Contents() == old(Contents())
    {
      var id := t.machine.id;
      if id !in machines || machines[id].state != Transitional(t.kind) {
        return;
      }
      var outcome := Judge(t.kind, res);
      var cur := machines[id];
      if outcome.Err? {
        cur := cur.(state := Failed, lastError := outcome.message);
      } else {
        cur := cur.(state := Stable(t.kind));
        match t.kind {
          case Create =>
            cur := cur.(host := outcome.host);
            if !outcome.resources.NilAttrs? {
              cur := cur.(resources := outcome.resources);
            }
            if !outcome.allocatable.NilAttrs? {
              cur := cur.(allocatable := outcome.allocatable);
            }
          case Configure =>
          case Drain => cur := cur.(cluster := "", metadata := NilAttrs);
          case Delete => cur := cur.(host := NO_HOST);
        }
      }
      WriteLocked(id, cur);
      PersistLocked();
    }

    /* ---- reconcile ---- */

    method ReconcileWith(listing: seq<Instance>)
      requires Valid()
      modifies this, store
      ensures Valid() && Contents() == Kit.Reconcile(cfg, old(Contents()), listing)
      ensures Contents() == old(Contents()) ==> store.snap == old(store.snap)
    {
      var changed := false;
      var i := 0;
      while i < |listing|
        invariant 0 <= i <= |listing|
        invariant Keyed(machines) && store.snap == old(store.snap)
        invariant Contents() == Kit.Reconcile(cfg, old(Contents()), listing[..i])
        invariant if changed then rev > old(rev) else Contents() == old(Contents())
      {
        ReconcileStep(cfg, old(Contents()), listing, i);
        var entry := listing[i];
        if entry.Valid(cfg.requireZone) {
          if entry.id !in machines {
            WriteLocked(entry.id, entry.ToMachine());
            changed := true;
          } else if Changes(machines[entry.id], entry) {
            WriteLocked(entry.id, Refresh(machines[entry.id], entry));
            changed := true;
          }
        }
        i := i + 1;
      }
      assert listing[..i] == listing;
      if changed {
        PersistLocked();
      }
    }

    /* ---- reads ---- */

    method Get(id: string) returns (r: Lookup)
      ensures r == InvalidId <==> id == ""
      ensures r.Found? <==> id != "" && id in machines
      ensures r.Found? ==> r.machine == machines[id]
    {
      if id == "" {
        return InvalidId;
      }
      if id !in machines {
        return Missing;
      }
      return Found(machines[id]);
    }

    /** Machines come in map order; a positive max cuts the answer short but not the revision. */
    method List(since: Option<int>, states: seq<State>, max: int) returns (out: seq<Machine>, revision: nat)
      requires Keyed(machines)
      ensures revision == rev && Answers(out, Matching(Contents(), since, states), max)
      ensures forall m :: m in out ==>
                && m.id in machines && machines[m.id] == m && (states == [] || m.state in states)
                && (since.Some? ==> (if m.id in lastMod then lastMod[m.id] else 0) > since.value)
      ensures forall i, j :: 0 <= i < j < |out| ==> out[i].id != out[j].id
      ensures max > 0 ==> |out| <= max
      ensures max <= 0 || |out| < max ==>
                forall id | id in machines && (states == [] || machines[id].state in states) ::
                  (since.None? || (if id in lastMod then lastMod[id] else 0) > since.value) ==> machines[id] in out
    {
      revision := rev;
      out := Collect(Contents(), since, states, max);
      forall id | id in machines && (states == [] || machines[id].state in states)
        ensures since.None? || (if id in lastMod then lastMod[id] else 0) > since.value ==>
                  id in Matching(Contents(), since, states)
      {
      }
    }

    static method Collect(m: Mem, since: Option<int>, states: seq<State>, max: int) returns (out: seq<Machine>)
      requires Keyed(m.d.machines)
      ensures Answers(out, Matching(m, since, states), max) && (max > 0 ==> |out| <= max)
    {
      out := [];
      var todo := m.d.machines.Keys;
      ghost var all := Matching(m, since, states);
      ghost var seen: set<string> := {};
      while todo != {} && (max <= 0 || |out| < max)
        invariant Collected(out, all, seen) && all.Keys <= seen + todo && seen !! todo
        invariant todo <= m.d.machines.Keys && (max > 0 ==> |out| <= max)
      {
        var id :| id in todo;
        todo := todo - {id};
        if Listed(m, since, states, id) {
          CollectStep(out, all, seen, id);
          out := out + [m.d.machines[id]];
          seen := seen + {id};
        }
      }
      CollectedAll(out, all, seen, max);
    }

    /* ---- helpers that run under the lock ---- */

    method TouchLocked(id: string)
      modifies this`rev, this`lastMod
      ensures rev == old(rev) + 1 && lastMod == old(lastMod)[id := old(rev) + 1]
    {
      rev := rev + 1;
      lastMod := lastMod[id := rev];
    }

    /** Write a record back and touch it. */
    method WriteLocked(id: string, rec: Machine)
      modifies this`machines, this`rev, this`lastMod
      ensures Contents() == Put(old(Contents()), id, rec)
    {
      machines := machines[id := rec];
      TouchLocked(id);
    }

    method PersistIf(cond: bool)
      requires Keyed(machines) && (!cond ==> Valid())
      modifies store
      ensures Valid()
    {
      if cond {
        PersistLocked();
      }
    }

    method PersistLocked()
      requires Keyed(machines)
      modifies store
      ensures Valid()
    {
      var snap := SnapshotLocked();
      SaveThenLoad(snap, Contents().d);
      store.Save(snap);
    }

    method SnapshotLocked() returns (snap: Snapshot)
      requires Keyed(machines)
      ensures Enumerates(snap, Contents().d)
      ensures |snap.machines| == |machines| && |snap.fences| == |fences| && |snap.ops| == |ops|
      ensures FieldForField(snap, Contents().d)
    {
      var ms := MachineRecords();
      var fs := FenceRecords();
      var os := OpRecords();
      snap := Snapshot(ms, fs, os, rev, nextOp);
      EnumeratedFields(snap, Contents().d);
    }

    method MachineRecords() returns (ms: seq<Machine>)
      requires Keyed(machines)
      ensures |ms| == |machines| && forall m :: m in ms <==> m.id in machines && machines[m.id] == m
    {
      ms := [];
      var ids := machines.Keys;
      while ids != {}
        invariant ids <= machines.Keys && |ms| == |machines| - |ids|
        invariant forall m :: m in ms <==> m.id in machines && m.id !in ids && machines[m.id] == m
      {
        var id :| id in ids;
        ms := ms + [machines[id]];
        ids := ids - {id};
      }
    }

    method FenceRecords() returns (fs: seq<FenceRecord>)
      ensures |fs| == |fences|
      ensures forall r :: r in fs <==> exists key :: key in fences && r == FenceRecordOf(key, fences[key])
    {
      fs := [];
      var keys := fences.Keys;
      while keys != {}
        invariant keys <= fences.Keys && |fs| == |fences| - |keys|
        invariant forall r :: r in fs ==>
                    exists key :: key in fences.Keys - keys && r == FenceRecordOf(key, fences[key])
        invariant forall key :: key in fences.Keys - keys ==> FenceRecordOf(key, fences[key]) in fs
      {
        var key :| key in keys;
        fs := fs + [FenceRecordOf(key, fences[key])];
        keys := keys - {key};
      }
    }

    method OpRecords() returns (os: seq<OpRecord>)
      ensures |os| == |ops|
      ensures forall r :: r in os <==> exists key :: key in ops && r == OpRecordOf(key, ops[key])
    {
      os := [];
      var keys := ops.Keys;
      while keys != {}
        invariant keys <= ops.Keys && |os| == |ops| - |keys|
        invariant forall r :: r in os ==> exists key :: key in ops.Keys - keys && r == OpRecordOf(key, ops[key])
        invariant forall key :: key in ops.Keys - keys ==> OpRecordOf(key, ops[key]) in os
      {
        var key :| key in keys;
        os := os + [OpRecordOf(key, ops[key])];
        keys := keys - {key};
      }
    }
  }

  /** Each record of a fence or an op holds, under its own name, what the map holds. */
  ghost predicate FieldForField(snap: Snapshot, d: Durable) {
    && (forall r :: r in snap.fences ==>
          && FenceKey(r.shard, r.machine) in d.fences
          && d.fences[FenceKey(r.shard, r.machine)] == FenceMark(r.epoch, r.sequence))
    && (forall r :: r in snap.ops ==> exists k: Kind ::
          r.kind == KindText(k) && OpKey(r.machine, k) in d.ops && d.ops[OpKey(r.machine, k)] == r.op)
  }

  lemma EnumeratedFields(snap: Snapshot, d: Durable)
    requires Enumerates(snap, d)
    ensures FieldForField(snap, d)
  {
    forall r | r in snap.ops
      ensures exists k: Kind ::
                r.kind == KindText(k) && OpKey(r.machine, k) in d.ops && d.ops[OpKey(r.machine, k)] == r.op
    {
      var key :| key in d.ops && r == OpRecordOf(key, d.ops[key]);
      assert OpKey(r.machine, key.kind) == key;
    }
  }

  /** isFresh looks at the record lists; they are empty exactly when the maps they load into are. */
  lemma FreshSnapshot(s: Snapshot)
    ensures |s.machines| == 0 && |s.fences| == 0 && |s.ops| == 0 && s.rev == 0 <==> IsFresh(Decode(s))
  {
    if |s.machines| > 0 {
      assert s.machines[|s.machines| - 1].id in MachineMap(s.machines);
    }
    if |s.fences| > 0 {
      var r := s.fences[|s.fences| - 1];
      assert FenceKey(r.shard, r.machine) in FenceMap(s.fences);
    }
    if |s.ops| > 0 {
      assert OpRecordKey(s.ops[|s.ops| - 1]) in OpMap(s.ops);
    }
  }

  /* ---- one round of a loop each, on values ---- */

  lemma ReconcileStep(cfg: Config, m: Mem, list: seq<Instance>, i: nat)
    requires i < |list|
    ensures Reconcile(cfg, m, list[..i + 1]) == ReconcileOne(cfg, Reconcile(cfg, m, list[..i]), list[i])
  {
    assert list[..i + 1][..i] == list[..i];
  }

  lemma {:induction false} SeededKeys(cfg: Config, list: seq<Instance>)
    requires Seedable(cfg, list)
    ensures var after := Reconcile(cfg, Mem(NO_RECORDS, map[]), list).d.machines;
            Keyed(after) && forall id :: id in after <==> exists j :: 0 <= j < |list| && list[j].id == id
  {
    if |list| > 0 {
      SeededKeys(cfg, list[..|list| - 1]);
    }
  }

  lemma SeedStep(cfg: Config, list: seq<Instance>, i: nat)
    requires i < |list| && Seedable(cfg, list[..i])
    ensures var m := Reconcile(cfg, Mem(NO_RECORDS, map[]), list[..i]);
            && (Seedable(cfg, list) ==> list[i].Valid(cfg.requireZone) && list[i].id !in m.d.machines)
            && (list[i].Valid(cfg.requireZone) && list[i].id !in m.d.machines ==>
                  && Seedable(cfg, list[..i + 1])
                  && Reconcile(cfg, Mem(NO_RECORDS, map[]), list[..i + 1]) == Put(m, list[i].id, list[i].ToMachine()))
  {
    SeededKeys(cfg, list[..i]);
    ReconcileStep(cfg, Mem(NO_RECORDS, map[]), list, i);
    assert forall j :: 0 <= j < i ==> list[..i][j].id == list[j].id;
  }

  predicate Collected(out: seq<Machine>, all: map<string, Machine>, seen: set<string>) {
    && seen <= all.Keys && |out| == |seen| && DistinctMachines(out)
    && (forall i :: 0 <= i < |out| ==> out[i].id in seen && out[i] == all[out[i].id])
    && (forall id :: id in seen ==> all[id] in out)
  }

  lemma CollectStep(out: seq<Machine>, all: map<string, Machine>, seen: set<string>, id: string)
    requires Collected(out, all, seen) && id in all && id !in seen && all[id].id == id
    ensures Collected(out + [all[id]], all, seen + {id})
  {
  }

  lemma CollectedAll(out: seq<Machine>, all: map<string, Machine>, seen: set<string>, max: int)
    requires Collected(out, all, seen) && (max > 0 ==> |out| <= max)
    requires all.Keys <= seen || 0 < max == |out|
    ensures Answers(out, all, max)
  {
    assert all.Keys == seen + (all.Keys - seen);
  }

  /** RecoveredTo as it stands when only the machines in `hit` have been failed. */
  ghost predicate FailedSoFar(before: Mem, now: Mem, hit: set<string>) {
    FailedRecords(before.d, now.d, hit) && FailedRevisions(before, now.lastMod, now.d.rev, hit)
  }

  ghost predicate FailedRecords(before: Durable, now: Durable, hit: set<string>) {
    && now == before.(machines := now.machines, rev := before.rev + |hit|)
    && now.machines.Keys == before.machines.Keys && hit <= before.machines.Keys
    && (forall id :: id in hit ==>
          IsTransitional(before.machines[id].state) && now.machines[id] == Interrupted(before.machines[id]))
    && (forall id :: id in now.machines && id !in hit ==> now.machines[id] == before.machines[id])
  }

  ghost predicate FailedRevisions(before: Mem, lastMod: map<string, nat>, rev: nat, hit: set<string>) {
    && lastMod.Keys == before.lastMod.Keys + hit
    && (forall id :: id in hit ==> before.d.rev < lastMod[id] <= rev)
    && DistinctRevisions(lastMod, hit)
    && (forall id :: id in before.lastMod && id !in hit ==> lastMod[id] == before.lastMod[id])
  }

  ghost predicate Recovering(before: Mem, now: Mem, todo: set<string>) {
    todo <= before.d.machines.Keys && FailedSoFar(before, now, InFlight(before.d) - todo)
  }

  lemma NothingFailed(before: Mem)
    requires before.lastMod.Keys == before.d.machines.Keys
    ensures Recovering(before, before, before.d.machines.Keys)
  {
    assert InFlight(before.d) - before.d.machines.Keys == {};
  }

  lemma FailOne(before: Mem, now: Mem, hit: set<string>, id: string)
    requires FailedSoFar(before, now, hit) && id in before.d.machines && id !in hit
    requires IsTransitional(before.d.machines[id].state)
    ensures FailedSoFar(before, Put(now, id, Interrupted(now.d.machines[id])), hit + {id})
  {
    hide Interrupted, FailedRevisions;
    OneRevisionMore(before, now.lastMod, now.d.rev, hit, id);
  }

  lemma OneRevisionMore(before: Mem, lastMod: map<string, nat>, rev: nat, hit: set<string>, id: string)
    requires FailedRevisions(before, lastMod, rev, hit) && id !in hit && before.d.rev <= rev
    ensures FailedRevisions(before, lastMod[id := rev + 1], rev + 1, hit + {id})
  {
  }

  lemma NotYetFailed(before: Mem, now: Mem, hit: set<string>, id: string)
    requires FailedSoFar(before, now, hit) && id in before.d.machines && id !in hit
    ensures id in now.d.machines && now.d.machines[id] == before.d.machines[id]
  {
    hide Interrupted;
  }

  lemma RecoverStep(before: Mem, now: Mem, todo: set<string>, id: string)
    requires Recovering(before, now, todo) && id in todo
    ensures id in now.d.machines && now.d.machines[id] == before.d.machines[id]
    ensures Recovering(before,
              if IsTransitional(now.d.machines[id].state) then Put(now, id, Interrupted(now.d.machines[id])) else now,
              todo - {id})
  {
    hide Interrupted, FailedSoFar;
    var hit, more := InFlight(before.d) - todo, InFlight(before.d) - (todo - {id});
    NotYetFailed(before, now, hit, id);
    if IsTransitional(before.d.machines[id].state) {
      assert more == hit + {id};
      FailOne(before, now, hit, id);
    } else {
      assert more == hit;
    }
  }

  lemma FullyRecovered(before: Mem, now: Mem)
    requires Recovering(before, now, {})
    ensures RecoveredTo(before, now) && (Keyed(before.d.machines) ==> Keyed(now.d.machines))
  {
    hide Recover, InFlight, Keyed, FailedSoFar;
    var hit := InFlight(before.d);
    assert hit - {} == hit;
    AllFailed(before, now, hit);
    AllTouched(before, now, hit);
  }

  lemma AllTouched(before: Mem, now: Mem, hit: set<string>)
    requires FailedSoFar(before, now, hit)
    ensures now.lastMod.Keys == before.lastMod.Keys + hit
    ensures forall id :: id in before.lastMod && id !in hit ==> now.lastMod[id] == before.lastMod[id]
    ensures forall id :: id in hit ==> before.d.rev < now.lastMod[id] <= now.d.rev
    ensures DistinctRevisions(now.lastMod, hit)
  {
    hide Interrupted;
  }

  lemma AllFailed(before: Mem, now: Mem, hit: set<string>)
    requires FailedSoFar(before, now, hit) && hit == InFlight(before.d)
    ensures now.d == Recover(before.d) && (Keyed(before.d.machines) ==> Keyed(now.d.machines))
  {
    hide FailedRevisions;
    assert now.d.machines == Recover(before.d).machines;
  }
}
