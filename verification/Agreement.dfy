/**
  For which fleets the kit's records agree with EC2 over every run that reads it through Describe:
  exactly those in which no live instance answers to a token the kit will issue, as one does when a
  store is lost and ids start over, and those from which the kit cannot start.
 */
module Agreement {
  import opened Machines
  import opened Kit
  import opened Reconciliation
  import opened KitSystem
  import opened KitInvariants
  import opened KitHistory
  import opened Guarantees
  import opened Ec2
  import opened AwsBackend
  import opened Conservation
  import SlotIdentity
  import Text

  /** The token map names instances that were launched, as EC2 keeps it. */
  ghost predicate Issued(f: Fleet) {
    forall token :: token in f.byToken ==> NotFuture(f, f.byToken[token])
  }

  lemma CallsKeepIssued(f: Fleet, spec: RunSpec, id: string, cluster: string)
    requires Issued(f)
    ensures Issued(Launch(f, spec).0)
    ensures Terminate(f, id).Some? ==> Issued(Terminate(f, id).value)
    ensures SetCluster(f, id, cluster).Some? ==> Issued(SetCluster(f, id, cluster).value)
  {
    var g := Launch(f, spec).0;
    forall c | c > f.counter + 1
      ensures FakeId(c) != FakeId(f.counter + 1)
    {
      if FakeId(c) == FakeId(f.counter + 1) {
        FakeIdInjective(c, f.counter + 1);
      }
    }
    hide FakeId;
    forall token | token in g.byToken
      ensures NotFuture(g, g.byToken[token])
    {
      if token in f.byToken {
        assert NotFuture(f, f.byToken[token]);
      }
    }
  }

  ghost predicate NoLiveToken(p: Plant, f: Fleet) {
    forall n :: 0 < n && TokenOf(p, n) in f.byToken ==> f.byToken[TokenOf(p, n)] !in f.instances
  }

  /** What the backend's tables and configuration say: prices and slots. */
  datatype Catalog = Catalog(quotes: Quotes, slots: seq<Instance>)

  predicate Sound(c: Catalog) {
    forall s :: s in c.slots ==> SlotLike(s)
  }

  /** Describe gives this listing of the fleet, for some order of Go's maps. */
  ghost predicate Given(p: Plant, c: Catalog, f: Fleet, list: seq<Instance>) {
    exists managed, order :: Answer(p.provider, c.quotes, c.slots, f.instances, managed, order, list)
  }

  /** Whatever the move reads of EC2 is an answer of Describe. */
  ghost predicate ReadsAnswer(p: Plant, c: Catalog, f: Fleet, v: Move) {
    && (v.Read? ==> Given(p, c, f, v.listing))
    && (v.Kit? && v.l.Boot? && v.l.input.Seeding? ==> Given(p, c, f, v.l.input.listing))
  }

  /** Some run from this fleet, with this catalog, ends here. */
  ghost predicate Reaches(p: Plant, c: Catalog, f: Fleet, w: World) {
    exists states, moves :: RunsTo(p, c, f, w, states, moves)
  }

  ghost predicate RunsTo(p: Plant, c: Catalog, f: Fleet, w: World, states: seq<World>, moves: seq<Move>) {
    && WorldRun(p, states, moves) && states[0].fleet == f && states[|moves|] == w
    && forall i :: 0 <= i < |moves| ==> ReadsAnswer(p, c, states[i].fleet, moves[i])
  }

  /** An orphan is listed with facts of its own, so New accepts a listing only if those are there. */
  ghost predicate Startable(p: Plant, f: Fleet) {
    forall iid :: iid in f.instances && Orphan(f.instances[iid]) ==> Placed(p, f.instances[iid])
  }

  predicate Orphan(i: Ec2Instance) {
    i.machineId == "" && i.running
  }

  predicate Placed(p: Plant, i: Ec2Instance) {
    i.instanceType != "" && (p.u.cfg.requireZone ==> i.zone != "")
  }

  lemma Begins(p: Plant, c: Catalog, f: Fleet)
    requires InstancesOk(f)
    ensures Reaches(p, c, f, World(START, f, map[], {}))
  {
    hide InstancesOk;
    assert RunsTo(p, c, f, World(START, f, map[], {}), [World(START, f, map[], {})], []);
  }

  lemma Goes(p: Plant, c: Catalog, f: Fleet, w: World, v: Move)
    requires Reaches(p, c, f, w) && CanMove(p, w, v) && ReadsAnswer(p, c, w.fleet, v)
    ensures Reaches(p, c, f, Moved(p, w, v))
  {
    hide Enabled, Grounded, Moved, InstancesOk, ReadsAnswer;
    var states, moves :| RunsTo(p, c, f, w, states, moves);
    var next := states + [Moved(p, w, v)];
    assert forall i :: 0 <= i < |states| ==> next[i] == states[i];
    assert RunsTo(p, c, f, Moved(p, w, v), next, moves + [v]);
  }

  lemma Arrived(p: Plant, c: Catalog, f: Fleet, w: World)
    requires Reaches(p, c, f, w)
    ensures KitInv(p.u, w.k) && InstancesOk(f)
  {
    hide KitInv, InstancesOk, CanMove, Moved;
    var states, moves :| RunsTo(p, c, f, w, states, moves);
    WorldRunInv(Watch(p, false, false), states, moves, |moves|);
    InvKit(Watch(p, false, false), w);
  }

  lemma InvKit(x: Watch, w: World)
    requires WorldInv(x, w)
    ensures KitInv(x.plant.u, w.k)
  {
    hide KitInv, FleetOk, EffectsOk, Virgin, InStep;
  }

  /* ---- a listing that New accepts, with as many free slots as one likes ---- */

  /** Longer than the id of any owner, so that slot ids built from it are no owner's. */
  ghost predicate Above(f: Fleet, base: string) {
    SlotIdentity.NoSlash(base) && forall iid :: iid in f.instances ==> |Owner(f.instances[iid])| < |base|
  }

  lemma SomeBase(f: Fleet) returns (base: string)
    ensures Above(f, base) && base != ""
  {
    base := Text.Zeros(|Longer(set iid | iid in f.instances :: Owner(f.instances[iid]))| + 1);
    SlotIdentity.AllDigitsHasNoSlash(base);
  }

  const FLAT: Quotes := (id, instanceType, zone, capacity) => Quoted(Fin(0.0), Fin(1.0), NilAttrs)

  /** A slot as rendered from its offering. */
  function Slot(id: string, instanceType: string): Instance {
    Instance(id, NO_HOST, Speculative, instanceType, "z", OnDemand, Fin(0.0), Fin(1.0), NilAttrs, NilAttrs, NilAttrs)
  }

  function SlotName(p: Plant, base: string, j: nat): (id: string)
    ensures |id| > |base|
  {
    SlotIdentity.SlotId(p.provider, OnDemand, base, "z", j)
  }

  /** One slot for each machine id in use, then an offering of k more. */
  function CatalogOf(p: Plant, base: string, ids: seq<string>, k: nat): Catalog {
    Catalog(FLAT, seq(|ids|, i requires 0 <= i < |ids| => Slot(ids[i], base))
                    + seq(k, j requires 0 <= j => Slot(SlotName(p, base, j), base)))
  }

  ghost predicate Lines<T(!new)>(list: seq<T>, all: set<T>) {
    && (forall x :: x in list <==> x in all)
    && (forall i, j :: 0 <= i < j < |list| ==> list[i] != list[j])
  }

  lemma {:induction false} LineUp<T(!new)>(all: set<T>) returns (list: seq<T>)
    ensures Lines(list, all)
  {
    if all == {} {
      list := [];
    } else {
      var x :| x in all;
      var rest := LineUp(all - {x});
      list := rest + [x];
    }
  }

  function Tags(f: Fleet): set<string> {
    set iid | iid in f.instances && f.instances[iid].machineId != "" :: f.instances[iid].machineId
  }

  /** A listing New accepts in which the first k slots of the offering are free. */
  ghost predicate Stock(p: Plant, c: Catalog, f: Fleet, base: string, k: nat, list: seq<Instance>) {
    && Sound(c) && Given(p, c, f, list) && Seedable(p.u.cfg, list) && Faithful(p.provider, f.instances, list)
    && forall j :: 0 <= j < k ==> Slot(SlotName(p, base, j), base) in list
  }

  /** What a listing of the fleet starts from: the machine ids in use, and the instances in map order. */
  ghost predicate Counted(f: Fleet, base: string, ids: seq<string>, managed: seq<Ec2Instance>) {
    InstancesOk(f) && Above(f, base) && base != "" && Lines(ids, Tags(f)) && Lines(managed, f.instances.Values)
  }

  lemma ListStock(p: Plant, f: Fleet, base: string, k: nat) returns (c: Catalog, list: seq<Instance>)
    requires InstancesOk(f) && Startable(p, f) && Above(f, base) && base != ""
    ensures Stock(p, c, f, base, k, list)
  {
    hide BySlot, Orphans, SlotEntry, ToIdle, SlotName, Above, Startable, Leftovers, Arranged, Lines, CatalogOf, Tags,
      Faithful, Answer, InstancesOk;
    var ids := LineUp(Tags(f));
    var managed := LineUp(f.instances.Values);
    c := CatalogOf(p, base, ids, k);
    var slots, owners, orphans := c.slots, BySlot(managed), Orphans(managed);
    ManagedAre(f, base, ids, managed);
    SlotsAre(p, f, base, ids, k, managed);
    var head := seq(|slots|, i requires 0 <= i < |slots| => SlotEntry(p.provider, slots, owners, i));
    var end := seq(|orphans|, i requires 0 <= i < |orphans| =>
                     ToIdle(p.provider, FLAT, orphans[i].instanceId, orphans[i]));
    list := head + [] + end;
    InParts(p.provider, FLAT, slots, owners, orphans, [], head, [], end);
    IsAnswer(p, c, f, managed, list);
    StockIsValid(p, f, base, ids, k, managed, list);
    StockIsDistinct(p, f, base, ids, k, managed, list);
  }

  lemma IsAnswer(p: Plant, c: Catalog, f: Fleet, managed: seq<Ec2Instance>, list: seq<Instance>)
    requires InstancesOk(f) && Sound(c) && Lines(managed, f.instances.Values)
    requires forall i :: i in managed <==> i.instanceId in f.instances && f.instances[i.instanceId] == i
    requires Leftovers(c.slots, BySlot(managed), [])
    requires Arranged(p.provider, c.quotes, c.slots, BySlot(managed), Orphans(managed), [], list)
    ensures Given(p, c, f, list) && Faithful(p.provider, f.instances, list)
  {
    hide Arranged, Leftovers, BySlot, Orphans, Faithful;
    assert Answer(p.provider, c.quotes, c.slots, f.instances, managed, [], list);
    ArrangedIsFaithful(p.provider, c.quotes, c.slots, managed, f.instances, [], list);
  }

  lemma ManagedAre(f: Fleet, base: string, ids: seq<string>, managed: seq<Ec2Instance>)
    requires Counted(f, base, ids, managed)
    ensures forall i :: i in managed <==> i.instanceId in f.instances && f.instances[i.instanceId] == i
    ensures forall id :: id in BySlot(managed) ==>
              id in ids && id != "" && |id| < |base| && BySlot(managed)[id] in managed
    ensures forall i :: i in Orphans(managed) <==> i in managed && Orphan(i)
  {
    hide BySlot, Orphans, OneEach;
    BySlotIs(managed);
    forall id | id in BySlot(managed)
      ensures id in Tags(f) && |id| < |base|
    {
      assert BySlot(managed)[id] in managed;
    }
  }

  lemma SlotsAre(p: Plant, f: Fleet, base: string, ids: seq<string>, k: nat, managed: seq<Ec2Instance>)
    requires Counted(f, base, ids, managed)
    ensures var c := CatalogOf(p, base, ids, k);
            && Sound(c) && DistinctIds(c.slots) && Leftovers(c.slots, BySlot(managed), []) && c.quotes == FLAT
            && (forall i :: 0 <= i < |c.slots| ==> c.slots[i] == Slot(c.slots[i].id, base) && c.slots[i].id != "")
            && (forall i :: 0 <= i < |c.slots| ==> c.slots[i].id in Tags(f) || |c.slots[i].id| > |base|)
            && (forall j :: 0 <= j < k ==> Slot(SlotName(p, base, j), base) in c.slots)
  {
    hide SlotName, BySlot, InstancesOk;
    ManagedAre(f, base, ids, managed);
    var slots := CatalogOf(p, base, ids, k).slots;
    forall i | 0 <= i < |slots|
      ensures slots[i] == Slot(slots[i].id, base) && slots[i].id != ""
    {
      if i < |ids| {
        TagsAreShort(f, base, ids[i]);
      }
    }
    forall i, j | 0 <= i < j < |slots|
      ensures slots[i].id != slots[j].id
    {
      if i < |ids| <= j {
        TagsAreShort(f, base, ids[i]);
      } else if i >= |ids| {
        SlotNamesDiffer(p, base, i - |ids|, j - |ids|);
      }
    }
    forall id | id in BySlot(managed)
      ensures !NoSlot(slots, id)
    {
      var i :| 0 <= i < |ids| && ids[i] == id;
      assert slots[i].id == id;
    }
    forall j | 0 <= j < k
      ensures Slot(SlotName(p, base, j), base) in slots
    {
      assert slots[|ids| + j] == Slot(SlotName(p, base, j), base);
    }
  }

  lemma TagsAreShort(f: Fleet, base: string, id: string)
    requires Above(f, base) && id in Tags(f)
    ensures 0 < |id| < |base|
  {
  }

  /** The shape of the listing built above. */
  ghost predicate Built(p: Plant, slots: seq<Instance>, managed: seq<Ec2Instance>, list: seq<Instance>) {
    var owners, orphans := BySlot(managed), Orphans(managed);
    && |list| == |slots| + |orphans|
    && (forall i :: 0 <= i < |slots| ==> list[i] == SlotEntry(p.provider, slots, owners, i))
    && (forall i :: 0 <= i < |orphans| ==>
          list[|slots| + i] == ToIdle(p.provider, FLAT, orphans[i].instanceId, orphans[i]))
  }

  lemma StockIsValid(p: Plant, f: Fleet, base: string, ids: seq<string>, k: nat, managed: seq<Ec2Instance>,
      list: seq<Instance>)
    requires Counted(f, base, ids, managed) && Startable(p, f)
    requires Built(p, CatalogOf(p, base, ids, k).slots, managed, list)
    ensures forall e :: e in list ==> e.Valid(p.u.cfg.requireZone)
    ensures forall j :: 0 <= j < k ==> Slot(SlotName(p, base, j), base) in list
  {
    hide CatalogOf, SlotName, BySlot, Orphans, Above, Leftovers, Startable, InstancesOk, Instance.Valid, Sound,
      DistinctIds, Tags;
    ManagedAre(f, base, ids, managed);
    SlotsAre(p, f, base, ids, k, managed);
    var slots, orphans := CatalogOf(p, base, ids, k).slots, Orphans(managed);
    forall e | e in list
      ensures e.Valid(p.u.cfg.requireZone)
    {
      var i :| 0 <= i < |list| && list[i] == e;
      if i < |slots| {
        SlotEntryIsValid(p, f, base, slots, BySlot(managed), i);
      } else {
        assert e == list[|slots| + (i - |slots|)] && orphans[i - |slots|] in orphans;
        OrphanIsValid(p, f, orphans[i - |slots|]);
      }
    }
    forall j | 0 <= j < k
      ensures Slot(SlotName(p, base, j), base) in list
    {
      var i :| 0 <= i < |slots| && slots[i] == Slot(SlotName(p, base, j), base);
      assert list[i] == slots[i];
    }
  }

  lemma SlotEntryIsValid(p: Plant, f: Fleet, base: string, slots: seq<Instance>, owners: map<string, Ec2Instance>,
      i: nat)
    requires InstancesOk(f) && base != "" && i < |slots|
    requires slots[i] == Slot(slots[i].id, base) && slots[i].id != ""
    requires forall id :: id in owners ==> owners[id].instanceId in f.instances
    ensures SlotEntry(p.provider, slots, owners, i).Valid(p.u.cfg.requireZone)
  {
  }

  lemma OrphanIsValid(p: Plant, f: Fleet, o: Ec2Instance)
    requires InstancesOk(f) && Startable(p, f) && Orphan(o)
    requires o.instanceId in f.instances && f.instances[o.instanceId] == o
    ensures ToIdle(p.provider, FLAT, o.instanceId, o).Valid(p.u.cfg.requireZone)
  {
  }

  lemma StockIsDistinct(p: Plant, f: Fleet, base: string, ids: seq<string>, k: nat, managed: seq<Ec2Instance>,
      list: seq<Instance>)
    requires Counted(f, base, ids, managed) && Built(p, CatalogOf(p, base, ids, k).slots, managed, list)
    ensures DistinctIds(list)
  {
    hide CatalogOf, SlotName, BySlot, Orphans, Above, Leftovers, Built, Tags, InstancesOk, Sound;
    ManagedAre(f, base, ids, managed);
    SlotsAre(p, f, base, ids, k, managed);
    OrphansDiffer(managed);
    var slots, orphans := CatalogOf(p, base, ids, k).slots, Orphans(managed);
    BuiltIds(p, slots, managed, list);
    forall i, j | 0 <= i < j < |list|
      ensures list[i].id != list[j].id
    {
      if |slots| <= j {
        assert orphans[j - |slots|] in orphans;
        if i < |slots| {
          OrphanIsNoSlot(f, base, orphans[j - |slots|], slots[i].id);
        } else {
          assert orphans[i - |slots|] in orphans && orphans[i - |slots|] != orphans[j - |slots|];
        }
      }
    }
  }

  lemma BuiltIds(p: Plant, slots: seq<Instance>, managed: seq<Ec2Instance>, list: seq<Instance>)
    requires Built(p, slots, managed, list)
    ensures |list| == |slots| + |Orphans(managed)|
    ensures forall i :: 0 <= i < |slots| ==> list[i].id == slots[i].id
    ensures forall i :: |slots| <= i < |list| ==> list[i].id == Orphans(managed)[i - |slots|].instanceId
  {
    hide BySlot, Orphans;
    forall i | |slots| <= i < |list|
      ensures list[i].id == Orphans(managed)[i - |slots|].instanceId
    {
      assert list[i] == list[|slots| + (i - |slots|)];
    }
  }

  lemma OrphanIsNoSlot(f: Fleet, base: string, o: Ec2Instance, id: string)
    requires InstancesOk(f) && Above(f, base)
    requires o.instanceId in f.instances && f.instances[o.instanceId] == o && Orphan(o)
    requires id in Tags(f) || |id| > |base|
    ensures id != o.instanceId
  {
    assert Owner(o) == o.instanceId;
    if id in Tags(f) {
      var iid :| iid in f.instances && f.instances[iid].machineId == id && id != "";
      assert SameOwner(f.instances[iid], o) <==> id == o.instanceId;
    }
  }

  lemma {:induction false} OrphansDiffer(managed: seq<Ec2Instance>)
    requires forall i, j :: 0 <= i < j < |managed| ==> managed[i] != managed[j]
    ensures forall i, j :: 0 <= i < j < |Orphans(managed)| ==> Orphans(managed)[i] != Orphans(managed)[j]
  {
    if |managed| > 0 {
      var init := managed[..|managed| - 1];
      OrphansDiffer(init);
      BySlotIs(init);
      assert forall o :: o in Orphans(init) ==> o in init;
    }
  }

  /* ---- a run that mints as many op ids as one likes ---- */

  ghost predicate Free(p: Plant, d: Durable, base: string, j: nat) {
    SlotName(p, base, j) in d.machines && d.machines[SlotName(p, base, j)].state == Speculative
  }

  /** Each visible instance is the host of its owner's record. */
  ghost predicate Kept(p: Plant, f: Fleet, d: Durable) {
    forall iid :: iid in f.instances && Visible(f.instances[iid]) ==> HostOfOwner(p, f, d, iid)
  }

  predicate HostOfOwner(p: Plant, f: Fleet, d: Durable, iid: string)
    requires iid in f.instances
  {
    var id := Owner(f.instances[iid]);
    id in d.machines && d.machines[id].host == HostRef(p.provider, iid)
  }

  ghost predicate SameHosts(d: Durable, after: Durable) {
    forall id :: id in d.machines ==> id in after.machines && after.machines[id].host == d.machines[id].host
  }

  lemma HostsKept(p: Plant, f: Fleet, d: Durable, after: Durable)
    requires Kept(p, f, d) && SameHosts(d, after)
    ensures Kept(p, f, after)
  {
    forall iid | iid in f.instances && Visible(f.instances[iid])
      ensures HostOfOwner(p, f, after, iid)
    {
      assert HostOfOwner(p, f, d, iid);
    }
  }

  /** The kit serves, m creates are out and none has acted; the slots from m to k are free. */
  ghost predicate Minted(p: Plant, c: Catalog, f: Fleet, base: string, k: nat, m: nat, w: World) {
    && Reaches(p, c, f, w) && w.fleet == f && w.effects == map[]
    && w.k.proc.Up? && w.k.disk.nextOp == m && Kept(p, f, w.k.disk)
    && forall j :: m <= j < k ==> Free(p, w.k.disk, base, j)
  }

  /** Seeding from a listing, as three moves. */
  lemma Seeds(p: Plant, c: Catalog, f: Fleet, list: seq<Instance>) returns (w: World)
    requires InstancesOk(f) && Given(p, c, f, list) && Seedable(p.u.cfg, list)
    requires Faithful(p.provider, f.instances, list)
    ensures Reaches(p, c, f, w) && w.fleet == f && w.effects == map[] && w.k.proc.Up?
    ensures w.k.disk == Reconcile(p.u.cfg, Loaded(NO_RECORDS), list).d
  {
    hide Reaches, InstancesOk, Reconcile, Seedable, Faithful, Loaded, Given;
    Begins(p, c, f);
    var w0 := World(START, f, map[], {});
    LoadedKeeps(NO_RECORDS);
    Goes(p, c, f, w0, Kit(Boot(Seeding(list))));
    var w1 := Moved(p, w0, Kit(Boot(Seeding(list))));
    Goes(p, c, f, w1, Kit(Commit));
    var w2 := Moved(p, w1, Kit(Commit));
    Goes(p, c, f, w2, Kit(Release));
    w := Moved(p, w2, Kit(Release));
  }

  lemma StockIsFree(p: Plant, c: Catalog, f: Fleet, base: string, k: nat, list: seq<Instance>, j: nat)
    requires Stock(p, c, f, base, k, list) && j < k
    ensures Free(p, Reconcile(p.u.cfg, Loaded(NO_RECORDS), list).d, base, j)
  {
    hide SlotName, Given, Faithful, Sound;
    var e := Slot(SlotName(p, base, j), base);
    assert e in list;
    EntryIsMember(p.u.cfg, list, e.id, e);
    Pointwise(p.u.cfg, Loaded(NO_RECORDS), list, e.id);
  }

  lemma MintedNone(p: Plant, c: Catalog, f: Fleet, base: string, k: nat, list: seq<Instance>) returns (w: World)
    requires InstancesOk(f) && Stock(p, c, f, base, k, list)
    ensures Minted(p, c, f, base, k, 0, w)
  {
    hide Reaches, InstancesOk, Free, Given, Sound;
    w := Seeds(p, c, f, list);
    forall iid | iid in f.instances && Visible(f.instances[iid])
      ensures HostOfOwner(p, f, w.k.disk, iid)
    {
      SeededHost(p, f, list, iid);
    }
    forall j | 0 <= j < k
      ensures Free(p, w.k.disk, base, j)
    {
      StockIsFree(p, c, f, base, k, list, j);
    }
    KeepsOverlay(p.u.cfg, Loaded(NO_RECORDS), list);
    hide Stock;
  }

  function CreateOf(p: Plant, base: string, m: nat): Request {
    Request(Create, SlotName(p, base, m), Fence("", 0, 0), "", NilAttrs)
  }

  /** The next create is out: its goroutine runs, its call is made and has not answered. */
  predicate Out(p: Plant, base: string, m: nat, w: World, t: Task) {
    && t.op == OpId(p.u.cfg.prefix, m + 1) && t.kind == Create && t.machine.id == SlotName(p, base, m)
    && m + 1 in w.k.tasks && w.k.tasks[m + 1] == t
    && m + 1 in w.k.calls && w.k.calls[m + 1] == Call(t, false, false, None)
    && SlotName(p, base, m) in w.k.disk.machines && w.k.disk.machines[SlotName(p, base, m)].state == Creating
  }

  lemma SlotNamesDiffer(p: Plant, base: string, i: nat, j: nat)
    requires SlotIdentity.NoSlash(base)
    ensures SlotName(p, base, i) == SlotName(p, base, j) ==> i == j
  {
    hide SlotIdentity.SlotId;
    if SlotName(p, base, i) == SlotName(p, base, j) {
      SlotIdentity.SlotIdInjective(p.provider, OnDemand, base, "z", i, p.provider, OnDemand, base, "z", j);
    }
  }

  /** The section that accepts the create of slot m. */
  lemma AcceptsNext(p: Plant, b: Mem, base: string, k: nat, m: nat)
    requires SlotIdentity.NoSlash(base) && m < k && b.d.nextOp == m && forall j :: m <= j < k ==> Free(p, b.d, base, j)
    ensures var sec := Dispatch(p.u.cfg, b, CreateOf(p, base, m));
            && sec.persist && sec.launched.Some? && sec.token == None && sec.reply.Some?
            && sec.mem.d.nextOp == m + 1 && (forall j :: m + 1 <= j < k ==> Free(p, sec.mem.d, base, j))
            && SameHosts(b.d, sec.mem.d)
            && (var t := sec.launched.value;
                && t.op == OpId(p.u.cfg.prefix, m + 1) && t.kind == Create
                && SlotName(p, base, m) in sec.mem.d.machines && t.machine == sec.mem.d.machines[SlotName(p, base, m)]
                && t.machine.state == Creating && t.machine.id == b.d.machines[SlotName(p, base, m)].id)
  {
    hide SlotName, SlotIdentity.NoSlash;
    assert Free(p, b.d, base, m);
    forall j | m + 1 <= j < k
      ensures Free(p, Dispatch(p.u.cfg, b, CreateOf(p, base, m)).mem.d, base, j)
    {
      assert Free(p, b.d, base, j);
      SlotNamesDiffer(p, base, m, j);
    }
  }

  lemma MintOne(p: Plant, c: Catalog, f: Fleet, base: string, k: nat, m: nat, w: World) returns (next: World, t: Task)
    requires Minted(p, c, f, base, k, m, w) && SlotIdentity.NoSlash(base) && m < k
    ensures Minted(p, c, f, base, k, m + 1, next) && Out(p, base, m, next, t)
  {
    hide Reaches, KitInv, Dispatch, Free, Kept, SameHosts, SlotName;
    Arrived(p, c, f, w);
    ServesStored(p.u, w.k);
    var b := w.k.proc.mem;
    AcceptsNext(p, b, base, k, m);
    NamedById(p, w.k, SlotName(p, base, m), base, m);
    var begin := Kit(Begin(Rpc(CreateOf(p, base, m))));
    Goes(p, c, f, w, begin);
    var w1 := Moved(p, w, begin);
    Goes(p, c, f, w1, Kit(Commit));
    var w2 := Moved(p, w1, Kit(Commit));
    Goes(p, c, f, w2, Kit(Release));
    next := Moved(p, w2, Kit(Release));
    t := w1.k.proc.sec.launched.value;
    HostsKept(p, f, w.k.disk, next.k.disk);
  }

  lemma ServesStored(u: Setup, s: Sys)
    requires KitInv(u, s) && s.proc.Up?
    ensures s.proc.mem.d == s.disk
  {
    DiskFollows(u, s);
  }

  lemma NamedById(p: Plant, s: Sys, id: string, base: string, m: nat)
    requires KitInv(p.u, s) && id == SlotName(p, base, m) && Free(p, s.disk, base, m)
    ensures s.disk.machines[id].id == id
  {
    hide TasksOk, CallsOk, HandedOk, TokensOk, BindingsOk, ReadyOk, ProcOk, SlotName;
  }

  lemma {:induction false} MintMany(p: Plant, c: Catalog, f: Fleet, base: string, k: nat, m: nat,
      list: seq<Instance>) returns (w: World, t: Task)
    requires InstancesOk(f) && SlotIdentity.NoSlash(base) && Stock(p, c, f, base, k, list) && 0 < m <= k
    ensures Minted(p, c, f, base, k, m, w) && Out(p, base, m - 1, w, t)
    decreases m
  {
    hide Minted, Out, InstancesOk, Stock;
    var before: World;
    if m == 1 {
      before := MintedNone(p, c, f, base, k, list);
    } else {
      var last;
      before, last := MintMany(p, c, f, base, k, m - 1, list);
    }
    w, t := MintOne(p, c, f, base, k, m - 1, before);
  }

  /* ---- the clash ---- */

  /** A create whose token a live instance answers to is handed that instance, whoever owns it. */
  lemma Replayed(p: Plant, f: Fleet, t: Task, n: nat)
    requires t.kind == Create && t.op == OpId(p.u.cfg.prefix, n)
    requires InstancesOk(f) && TokenOf(p, n) in f.byToken && f.byToken[TokenOf(p, n)] in f.instances
    ensures Perform(f, t) == Some((f, Launched(f.byToken[TokenOf(p, n)])))
  {
  }

  /** That create answers, and its record settles on the other machine's host. */
  lemma Settles(p: Plant, c: Catalog, f: Fleet, base: string, m: nat, w: World, t: Task, iid: string)
    returns (end: World)
    requires Reaches(p, c, f, w) && w.fleet == f && w.effects == map[] && w.k.proc.Up? && Out(p, base, m, w, t)
    requires Perform(f, t) == Some((f, Launched(iid))) && iid != ""
    ensures forall id :: id in w.k.disk.machines && id != SlotName(p, base, m) ==>
              id in end.k.disk.machines && end.k.disk.machines[id] == w.k.disk.machines[id]
    ensures Reaches(p, c, f, end) && end.fleet == f && SlotName(p, base, m) in end.k.disk.machines
    ensures end.k.disk.machines[SlotName(p, base, m)].state == Idle
    ensures end.k.disk.machines[SlotName(p, base, m)].host == HostRef(p.provider, iid)
  {
    hide Reaches, KitInv, Perform, SlotName;
    Arrived(p, c, f, w);
    ServesStored(p.u, w.k);
    var res := Ok(HostRef(p.provider, iid), NilAttrs, NilAttrs);
    Goes(p, c, f, w, Act(m + 1));
    var w1 := Moved(p, w, Act(m + 1));
    Goes(p, c, f, w1, Kit(Returned(m + 1, res)));
    var w2 := Moved(p, w1, Kit(Returned(m + 1, res)));
    Goes(p, c, f, w2, Kit(Begin(Finish(t, res))));
    var w3 := Moved(p, w2, Kit(Begin(Finish(t, res))));
    Goes(p, c, f, w3, Kit(Commit));
    end := Moved(p, w3, Kit(Commit));
  }

  /**
    A live instance that answers to a token of the kit ends up as the host of a record that does not
    own it, and, if it is listed at all, of its owner's record as well: seed from an answer of Describe,
    accept as many creates as it takes to mint that token, and let the last one answer.
   */
  lemma LiveTokenBreaks(p: Plant, f: Fleet, n: nat) returns (c: Catalog, w: World, a: string)
    requires InstancesOk(f) && Startable(p, f)
    requires 0 < n && TokenOf(p, n) in f.byToken && f.byToken[TokenOf(p, n)] in f.instances
    ensures Sound(c) && Reaches(p, c, f, w) && !HostsReal(p, w)
    ensures a in w.k.disk.machines && w.k.disk.machines[a].state == Idle
    ensures var iid := f.byToken[TokenOf(p, n)];
            var b := Owner(f.instances[iid]);
            && w.fleet == f && w.k.disk.machines[a].host == HostRef(p.provider, iid) && a != b
            && (Visible(f.instances[iid]) ==>
                 b in w.k.disk.machines && w.k.disk.machines[b].host == w.k.disk.machines[a].host)
  {
    hide Reaches, InstancesOk, Minted, SlotName, Startable, Given, Seedable, Faithful;
    var iid := f.byToken[TokenOf(p, n)];
    var base := SomeBase(f);
    var list;
    c, list := ListStock(p, f, base, n);
    var out, t := MintMany(p, c, f, base, n, n, list);
    Replayed(p, f, t, n);
    MintedIsUp(p, c, f, base, n, n, out);
    IdIsSet(f, iid);
    w := Settles(p, c, f, base, n - 1, out, t, iid);
    NotTheOwner(p, f, base, n - 1, w, iid);
    a := SlotName(p, base, n - 1);
    assert Visible(f.instances[iid]) ==> HostOfOwner(p, f, out.k.disk, iid);
  }

  lemma MintedIsUp(p: Plant, c: Catalog, f: Fleet, base: string, k: nat, m: nat, w: World)
    requires Minted(p, c, f, base, k, m, w)
    ensures Reaches(p, c, f, w) && w.fleet == f && w.effects == map[] && w.k.proc.Up? && Kept(p, f, w.k.disk)
  {
  }

  lemma IdIsSet(f: Fleet, iid: string)
    requires InstancesOk(f) && iid in f.instances
    ensures iid != ""
  {
  }

  lemma NotTheOwner(p: Plant, f: Fleet, base: string, m: nat, w: World, iid: string)
    requires Above(f, base) && w.fleet == f && iid in f.instances && SlotName(p, base, m) in w.k.disk.machines
    requires w.k.disk.machines[SlotName(p, base, m)].state == Idle
    requires w.k.disk.machines[SlotName(p, base, m)].host == HostRef(p.provider, iid)
    ensures !HostsReal(p, w)
  {
    assert !HostIsReal(p, w, SlotName(p, base, m));
  }

  /**
    Over a fleet as EC2 keeps it, with one instance per machine, and whatever the catalog: every record
    has a host of its own in every state of every run exactly when no live instance answers to a token
    the kit will issue, or an orphan without type or zone keeps the kit from starting at all.
   */
  lemma AgreementExactlyWhen(p: Plant, f: Fleet)
    requires InstancesOk(f) && Issued(f)
    ensures (forall c, w :: Sound(c) && Reaches(p, c, f, w) ==> HostsReal(p, w)) <==>
              NoLiveToken(p, f) || !Startable(p, f)
  {
    hide InstancesOk, HostsReal, CanMove, Moved, Startable, Sound, ReadsAnswer;
    if NoLiveToken(p, f) || !Startable(p, f) {
      forall c, w | Sound(c) && Reaches(p, c, f, w)
        ensures HostsReal(p, w)
      {
        var states, moves :| RunsTo(p, c, f, w, states, moves);
        if NoLiveToken(p, f) {
          HostsAreReal(p, states, moves, |moves|);
        } else {
          NeverStarts(p, c, f, w, states, moves, |moves|);
        }
      }
    } else {
      var n :| 0 < n && TokenOf(p, n) in f.byToken && f.byToken[TokenOf(p, n)] in f.instances;
      var c, w, _ := LiveTokenBreaks(p, f, n);
    }
  }

  /** For such a fleet cluster tags agree with the records in every state exactly when it had none to begin with. */
  lemma TagsExactlyWhen(p: Plant, f: Fleet)
    requires InstancesOk(f) && Issued(f) && NoLiveToken(p, f)
    ensures (forall c, w :: Sound(c) && Reaches(p, c, f, w) ==> TagsReal(w)) <==> Untagged(f) || !Startable(p, f)
  {
    hide InstancesOk, TagsReal, CanMove, Moved, Untagged, Startable, Sound, ReadsAnswer;
    if Untagged(f) || !Startable(p, f) {
      forall c, w | Sound(c) && Reaches(p, c, f, w)
        ensures TagsReal(w)
      {
        var states, moves :| RunsTo(p, c, f, w, states, moves);
        if Untagged(f) {
          HostsAreReal(p, states, moves, |moves|);
        } else {
          NeverStarts(p, c, f, w, states, moves, |moves|);
        }
      }
    } else {
      var c, w := ForgetsTag(p, f);
    }
  }

  /** New refuses every listing of such a fleet, so nothing ever happens. */
  lemma {:induction false} NeverStarts(p: Plant, c: Catalog, f: Fleet, w: World, states: seq<World>, moves: seq<Move>,
      i: nat)
    requires RunsTo(p, c, f, w, states, moves) && !Startable(p, f) && i <= |moves|
    ensures states[i] == World(START, f, map[], {}) && HostsReal(p, states[i]) && TagsReal(states[i])
  {
    hide CanMove, Moved, Startable, ReadsAnswer, InstancesOk;
    if i > 0 {
      NeverStarts(p, c, f, w, states, moves, i - 1);
      Stuck(p, c, f, moves[i - 1]);
    }
  }

  lemma Stuck(p: Plant, c: Catalog, f: Fleet, v: Move)
    requires InstancesOk(f) && !Startable(p, f) && ReadsAnswer(p, c, f, v)
    ensures !CanMove(p, World(START, f, map[], {}), v)
  {
    hide Seedable, Startable, Faithful, InstancesOk, Given;
    if v.Kit? && v.l.Boot? && v.l.input.Seeding? {
      NotSeedable(p, c, f, v.l.input.listing);
    }
  }

  lemma NotSeedable(p: Plant, c: Catalog, f: Fleet, list: seq<Instance>)
    requires InstancesOk(f) && Given(p, c, f, list) && !Startable(p, f)
    ensures !Seedable(p.u.cfg, list)
  {
    hide BySlot, Orphans, Leftovers, Arranged, OneEach, FakeId, DistinctIds, ToIdle, Instance.Valid, Placed;
    var managed, order :| Answer(p.provider, c.quotes, c.slots, f.instances, managed, order, list);
    BySlotIs(managed);
    var iid :| iid in f.instances && Orphan(f.instances[iid]) && !Placed(p, f.instances[iid]);
    var o, orphans := f.instances[iid], Orphans(managed);
    assert o in managed && o in orphans;
    OrphanIsInvalid(p, c.quotes, o);
    OrphanIsListed(p, c, orphans, BySlot(managed), order, list, o);
  }

  lemma OrphanIsListed(p: Plant, c: Catalog, orphans: seq<Ec2Instance>, owners: map<string, Ec2Instance>,
      order: seq<string>, list: seq<Instance>, o: Ec2Instance)
    requires Leftovers(c.slots, owners, order)
    requires Arranged(p.provider, c.quotes, c.slots, owners, orphans, order, list)
    requires o in orphans
    ensures exists i :: 0 <= i < |list| && list[i] == ToIdle(p.provider, c.quotes, o.instanceId, o)
  {
    hide Leftovers, SlotEntry, ToIdle;
    var i :| 0 <= i < |orphans| && orphans[i] == o;
    assert list[|c.slots| + |order| + i] == ToIdle(p.provider, c.quotes, o.instanceId, o);
  }

  lemma OrphanIsInvalid(p: Plant, quotes: Quotes, o: Ec2Instance)
    requires !Placed(p, o)
    ensures !ToIdle(p.provider, quotes, o.instanceId, o).Valid(p.u.cfg.requireZone)
  {
  }

  /** Seeding forgets what an instance was bound to. */
  lemma ForgetsTag(p: Plant, f: Fleet) returns (c: Catalog, w: World)
    requires InstancesOk(f) && Startable(p, f) && !Untagged(f)
    ensures Sound(c) && Reaches(p, c, f, w) && !TagsReal(w)
  {
    hide Reaches, InstancesOk, Startable, Given, Seedable, Faithful, SlotName;
    var base := SomeBase(f);
    var list;
    c, list := ListStock(p, f, base, 0);
    w := Seeds(p, c, f, list);
    var iid :| iid in f.instances && Visible(f.instances[iid]) && f.instances[iid].cluster != "";
    SeededHost(p, f, list, iid);
    assert !TagIsReal(w, Owner(f.instances[iid]));
  }

  lemma SeededHost(p: Plant, f: Fleet, list: seq<Instance>, iid: string)
    requires InstancesOk(f) && Seedable(p.u.cfg, list) && Faithful(p.provider, f.instances, list)
    requires iid in f.instances && Visible(f.instances[iid])
    ensures var id, d := Owner(f.instances[iid]), Reconcile(p.u.cfg, Loaded(NO_RECORDS), list).d;
            && id in d.machines && d.machines[id].state == Idle && d.machines[id].host == HostRef(p.provider, iid)
            && d.machines[id].cluster == ""
  {
    var id := Owner(f.instances[iid]);
    var i :| 0 <= i < |list| && list[i].id == id && list[i].state == Idle;
    assert list[i] in list;
    EntryIsMember(p.u.cfg, list, id, list[i]);
    Pointwise(p.u.cfg, Loaded(NO_RECORDS), list, id);
    assert SameOwner(f.instances[list[i].host.ref], f.instances[iid]);
  }
}
