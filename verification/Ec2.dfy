/** The AWS side: the in-memory EC2 of ec2fake.go and the inventory listing of aws/backend.go. */
module Ec2 {
  import opened Machines
  import opened CapacityTags
  import Text

  datatype Ec2Instance = Ec2Instance(
    instanceId: string,
    machineId: string,
    instanceType: string,
    zone: string,
    spot: bool,
    privateDns: string,
    cluster: string,
    capacity: string,
    running: bool)

  datatype RunSpec = RunSpec(
    machineId: string,
    instanceType: string,
    zone: string,
    spot: bool,
    capacity: string,
    token: string)

  datatype Fleet = Fleet(counter: nat, instances: map<string, Ec2Instance>, byToken: map<string, string>)

  function FakeId(n: nat): string {
    "i-fake" + Text.Pad(n, 8)
  }

  lemma FakeIdInjective(a: nat, b: nat)
    requires FakeId(a) == FakeId(b)
    ensures a == b
  {
    assert FakeId(a)[6..] == Text.Pad(a, 8) && FakeId(b)[6..] == Text.Pad(b, 8);
    Text.PadValue(a, 8);
    Text.PadValue(b, 8);
  }

  /* ---- the four calls as functions of the fleet ---- */

  predicate Replays(f: Fleet, spec: RunSpec) {
    spec.token != "" && spec.token in f.byToken && f.byToken[spec.token] in f.instances
  }

  function NewInstance(f: Fleet, spec: RunSpec): Ec2Instance {
    Ec2Instance(FakeId(f.counter + 1), spec.machineId, spec.instanceType, spec.zone, spec.spot,
                "ip-10-0-0-" + Text.Dec((f.counter + 1) % 250 + 1) + ".ec2.internal", "", spec.capacity, true)
  }

  function Launch(f: Fleet, spec: RunSpec): (r: (Fleet, Ec2Instance)) {
    if Replays(f, spec) then (f, f.instances[f.byToken[spec.token]])
    else
      var inst := NewInstance(f, spec);
      (Fleet(f.counter + 1,
             f.instances[inst.instanceId := inst],
             if spec.token != "" then f.byToken[spec.token := inst.instanceId] else f.byToken),
       inst)
  }

  function Terminate(f: Fleet, id: string): Option<Fleet> {
    if id in f.instances then Some(f.(instances := f.instances - {id})) else None
  }

  function SetCluster(f: Fleet, id: string, cluster: string): Option<Fleet> {
    if id in f.instances
    then Some(f.(instances := f.instances[id := f.instances[id].(cluster := cluster)])) else None
  }

  class Ec2Fake {
    var counter: nat
    var instances: map<string, Ec2Instance>
    var byToken: map<string, string>

    function Contents(): Fleet
      reads this
    {
      Fleet(counter, instances, byToken)
    }

    constructor ()
      ensures Contents() == Fleet(0, map[], map[])
    {
      counter, instances, byToken := 0, map[], map[];
    }

    method RunInstance(spec: RunSpec) returns (inst: Ec2Instance)
      modifies this
      ensures Contents() == Launch(old(Contents()), spec).0 && inst == Launch(old(Contents()), spec).1
    {
      if spec.token != "" && spec.token in byToken {
        var id := byToken[spec.token];
        if id in instances {
          return instances[id];
        }
      }
      counter := counter + 1;
      var id := FakeId(counter);
      inst := Ec2Instance(id, spec.machineId, spec.instanceType, spec.zone, spec.spot,
                          "ip-10-0-0-" + Text.Dec(counter % 250 + 1) + ".ec2.internal", "", spec.capacity, true);
      instances := instances[id := inst];
      if spec.token != "" {
        byToken := byToken[spec.token := id];
      }
    }

    method TerminateInstance(id: string) returns (ok: bool)
      modifies this
      ensures match Terminate(old(Contents()), id)
              case Some(f) => ok && Contents() == f
              case None => !ok && Contents() == old(Contents())
    {
      if id !in instances {
        return false;
      }
      instances := instances - {id};
      ok := true;
    }

    method ApplyBootstrap(id: string, cluster: string) returns (ok: bool)
      modifies this
      ensures match SetCluster(old(Contents()), id, cluster)
              case Some(f) => ok && Contents() == f
              case None => !ok && Contents() == old(Contents())
    {
      if id !in instances {
        return false;
      }
      instances := instances[id := instances[id].(cluster := cluster)];
      ok := true;
    }

    method DrainNode(id: string) returns (ok: bool)
      modifies this
      ensures match SetCluster(old(Contents()), id, "")
              case Some(f) => ok && Contents() == f
              case None => !ok && Contents() == old(Contents())
    {
      if id !in instances {
        return false;
      }
      instances := instances[id := instances[id].(cluster := "")];
      ok := true;
    }

    /** Every instance once, in map order. */
    method DescribeManaged() returns (out: seq<Ec2Instance>)
      ensures |out| == |instances|
      ensures forall i :: i in out <==> exists id :: id in instances && instances[id] == i
      ensures (forall id :: id in instances ==> instances[id].instanceId == id) ==>
                forall j, k :: 0 <= j < k < |out| ==> out[j] != out[k]
    {
      out := [];
      var todo := instances.Keys;
      while todo != {}
        invariant todo <= instances.Keys && |out| == |instances| - |todo|
        invariant forall j :: 0 <= j < |out| ==> exists id :: id in instances && id !in todo && instances[id] == out[j]
        invariant (forall id :: id in instances ==> instances[id].instanceId == id) ==>
                    forall j, k :: 0 <= j < k < |out| ==> out[j] != out[k]
        invariant forall i :: i in out ==> exists id :: id in instances && instances[id] == i
        invariant forall id :: id in instances && id !in todo ==> instances[id] in out
      {
        var id :| id in todo;
        out := out + [instances[id]];
        todo := todo - {id};
      }
    }
  }

  /* ---- ownership ---- */

  /** Instances the backend surfaces: tagged with a machine id, or running. */
  predicate Visible(i: Ec2Instance) {
    i.machineId != "" || i.running
  }

  /** The machine id an instance is surfaced under. */
  function Owner(i: Ec2Instance): string {
    if i.machineId != "" then i.machineId else i.instanceId
  }

  /* ---- aws/backend.go: Describe ---- */

  /** What the price, interruption and instance-type tables say about a machine. */
  datatype Quoted = Quoted(price: Float64, interruption: Float64, allocatable: Attrs)

  type Quotes = (string, string, string, CapacityType) -> Quoted

  function Recovered(i: Ec2Instance): CapacityType {
    var c := ParseCapacityTag(i.capacity);
    if c != CapacityUnspecified then c else if i.spot then Spot else OnDemand
  }

  function ToIdle(provider: string, quotes: Quotes, id: string, i: Ec2Instance): Instance {
    var c := Recovered(i);
    var q := quotes(id, i.instanceType, i.zone, c);
    Instance(id, HostRef(provider, i.instanceId), Idle, i.instanceType, i.zone, c,
             q.price, q.interruption, NilAttrs, q.allocatable, NilAttrs)
  }

  function Backed(provider: string, slot: Instance, i: Ec2Instance): Instance {
    slot.(state := Idle, host := HostRef(provider, i.instanceId))
  }

  predicate SlotLike(s: Instance) {
    s.state == Speculative && s.host == NO_HOST
  }

  /** The last tagged instance of each machine id, as the map assignments leave it. */
  function BySlot(managed: seq<Ec2Instance>): map<string, Ec2Instance> {
    if |managed| == 0 then map[]
    else
      var last := managed[|managed| - 1];
      var rest := BySlot(managed[..|managed| - 1]);
      if last.machineId != "" then rest[last.machineId := last] else rest
  }

  function Orphans(managed: seq<Ec2Instance>): seq<Ec2Instance> {
    if |managed| == 0 then []
    else
      var last := managed[|managed| - 1];
      var rest := Orphans(managed[..|managed| - 1]);
      if last.machineId == "" && last.running then rest + [last] else rest
  }

  lemma {:induction false} BySlotIs(managed: seq<Ec2Instance>)
    ensures forall id :: id in BySlot(managed) ==>
              BySlot(managed)[id] in managed && BySlot(managed)[id].machineId == id && id != ""
    ensures forall i :: i in managed && i.machineId != "" ==> i.machineId in BySlot(managed)
    ensures forall i :: i in Orphans(managed) <==> i in managed && i.machineId == "" && i.running
  {
    if |managed| > 0 {
      var init := managed[..|managed| - 1];
      assert managed == init + [managed[|managed| - 1]];
      BySlotIs(init);
    }
  }

  /**
    What any caller may rely on about a listing of a fleet: Idle entries are backed by a live
    instance under its owner's id, other entries are host-less slots, and every visible instance's
    owner is listed Idle.
   */
  ghost predicate Faithful(provider: string, instances: map<string, Ec2Instance>, out: seq<Instance>) {
    && (forall e :: e in out ==> SlotLike(e) || (e.state == Idle && BackedBy(provider, instances, e)))
    && (forall id :: id in instances && Visible(instances[id]) ==> ListedIdle(out, Owner(instances[id])))
  }

  ghost predicate BackedBy(provider: string, instances: map<string, Ec2Instance>, e: Instance) {
    && e.host.provider == provider && e.host.ref in instances
    && Visible(instances[e.host.ref]) && Owner(instances[e.host.ref]) == e.id
  }

  ghost predicate ListedIdle(out: seq<Instance>, id: string) {
    exists i :: 0 <= i < |out| && out[i].id == id && out[i].state == Idle
  }

  /** A slot's entry: Idle on the instance tagged with its id, for the first slot of that id. */
  function SlotEntry(provider: string, slots: seq<Instance>, owners: map<string, Ec2Instance>, i: nat): Instance
    requires i < |slots|
  {
    if slots[i].id in owners && FirstSlot(slots, i)
    then Backed(provider, slots[i], owners[slots[i].id]) else slots[i]
  }

  predicate FirstSlot(slots: seq<Instance>, i: nat)
    requires i < |slots|
  {
    forall j :: 0 <= j < i ==> slots[j].id != slots[i].id
  }

  predicate NoSlot(slots: seq<Instance>, id: string) {
    forall j :: 0 <= j < |slots| ==> slots[j].id != id
  }

  /** Each slotless owner once. */
  predicate Leftovers(slots: seq<Instance>, owners: map<string, Ec2Instance>, order: seq<string>) {
    && (forall k :: 0 <= k < |order| ==> order[k] in owners && NoSlot(slots, order[k]))
    && (forall id :: id in owners && NoSlot(slots, id) ==> id in order)
    && (forall j, k :: 0 <= j < k < |order| ==> order[j] != order[k])
  }

  /** The whole answer: the slots in order, then the slotless owners in map order, then the orphans. */
  predicate Arranged(provider: string, quotes: Quotes, slots: seq<Instance>, owners: map<string, Ec2Instance>,
                     orphans: seq<Ec2Instance>, order: seq<string>, out: seq<Instance>)
    requires Leftovers(slots, owners, order)
  {
    && |out| == |slots| + |order| + |orphans|
    && (forall i :: 0 <= i < |slots| ==> out[i] == SlotEntry(provider, slots, owners, i))
    && (forall k :: 0 <= k < |order| ==> out[|slots| + k] == ToIdle(provider, quotes, order[k], owners[order[k]]))
    && (forall k :: 0 <= k < |orphans| ==>
          out[|slots| + |order| + k] == ToIdle(provider, quotes, orphans[k].instanceId, orphans[k]))
  }

  /** What Describe answers when the instances come as `managed` and the slotless owners in `order`. */
  ghost predicate Answer(provider: string, quotes: Quotes, slots: seq<Instance>, instances: map<string, Ec2Instance>,
                         managed: seq<Ec2Instance>, order: seq<string>, out: seq<Instance>) {
    && (forall i :: i in managed <==> i.instanceId in instances && instances[i.instanceId] == i)
    && (forall j, k :: 0 <= j < k < |managed| ==> managed[j] != managed[k])
    && Leftovers(slots, BySlot(managed), order)
    && Arranged(provider, quotes, slots, BySlot(managed), Orphans(managed), order, out)
  }

  method Describe(provider: string, quotes: Quotes, slots: seq<Instance>, ec2: Ec2Fake)
    returns (out: seq<Instance>, ghost managed: seq<Ec2Instance>, ghost order: seq<string>)
    requires forall s :: s in slots ==> SlotLike(s)
    requires forall id :: id in ec2.instances ==> ec2.instances[id].instanceId == id
    ensures Answer(provider, quotes, slots, ec2.instances, managed, order, out)
    ensures Faithful(provider, ec2.instances, out)
  {
    hide Arranged, Leftovers, Faithful, BySlot, Orphans, SlotEntry, ToIdle;
    var all := ec2.DescribeManaged();
    var bySlot, orphans := Split(all);
    managed := all;
    var head, rest := ListSlots(provider, slots, bySlot);
    var tail;
    tail, order := ListLeftovers(provider, quotes, slots, bySlot, rest);
    var end := ListOrphans(provider, quotes, orphans);
    out := head + tail + end;
    InParts(provider, quotes, slots, bySlot, orphans, order, head, tail, end);
    ArrangedIsFaithful(provider, quotes, slots, managed, ec2.instances, order, out);
  }

  method Split(managed: seq<Ec2Instance>) returns (bySlot: map<string, Ec2Instance>, orphans: seq<Ec2Instance>)
    ensures bySlot == BySlot(managed) && orphans == Orphans(managed)
  {
    bySlot, orphans := map[], [];
    var i := 0;
    while i < |managed|
      invariant 0 <= i <= |managed|
      invariant bySlot == BySlot(managed[..i]) && orphans == Orphans(managed[..i])
    {
      assert managed[..i + 1][..i] == managed[..i];
      if managed[i].machineId != "" {
        bySlot := bySlot[managed[i].machineId := managed[i]];
      } else if managed[i].running {
        orphans := orphans + [managed[i]];
      }
      i := i + 1;
    }
    assert managed[..i] == managed;
  }

  /** The slot loop; an upgraded slot's instance leaves the map. */
  method ListSlots(provider: string, slots: seq<Instance>, owners: map<string, Ec2Instance>)
    returns (out: seq<Instance>, bySlot: map<string, Ec2Instance>)
    ensures |out| == |slots| && forall i :: 0 <= i < |slots| ==> out[i] == SlotEntry(provider, slots, owners, i)
    ensures forall id :: id in bySlot <==> id in owners && NoSlot(slots, id)
    ensures forall id :: id in bySlot ==> bySlot[id] == owners[id]
  {
    out, bySlot := [], owners;
    var n := 0;
    while n < |slots|
      invariant 0 <= n <= |slots| && |out| == n
      invariant forall i :: 0 <= i < n ==> out[i] == SlotEntry(provider, slots, owners, i)
      invariant forall id :: id in bySlot <==> id in owners && NoSlot(slots[..n], id)
      invariant forall id :: id in bySlot ==> bySlot[id] == owners[id]
    {
      var slot := slots[n];
      assert FirstSlot(slots, n) <==> NoSlot(slots[..n], slot.id);
      assert forall id :: NoSlot(slots[..n + 1], id) <==> NoSlot(slots[..n], id) && slot.id != id by {
        assert slots[..n + 1] == slots[..n] + [slot];
      }
      if slot.id in bySlot {
        slot := slot.(state := Idle, host := HostRef(provider, bySlot[slot.id].instanceId));
        bySlot := bySlot - {slot.id};
      }
      out := out + [slot];
      n := n + 1;
    }
    assert slots[..n] == slots;
  }

  /** Tagged instances matching no slot, in map order. */
  method ListLeftovers(provider: string, quotes: Quotes, ghost slots: seq<Instance>,
      ghost owners: map<string, Ec2Instance>, bySlot: map<string, Ec2Instance>)
    returns (out: seq<Instance>, ghost order: seq<string>)
    requires forall id :: id in bySlot <==> id in owners && NoSlot(slots, id)
    requires forall id :: id in bySlot ==> bySlot[id] == owners[id]
    ensures Leftovers(slots, owners, order) && |out| == |order|
    ensures forall k :: 0 <= k < |order| ==>
              order[k] in owners && out[k] == ToIdle(provider, quotes, order[k], owners[order[k]])
  {
    hide ToIdle, NoSlot;
    out, order := [], [];
    var todo := bySlot.Keys;
    while todo != {}
      invariant todo <= bySlot.Keys && |out| == |order|
      invariant forall id :: id in bySlot <==> id in todo || id in order
      invariant forall k :: 0 <= k < |order| ==> order[k] !in todo
      invariant forall j, k :: 0 <= j < k < |order| ==> order[j] != order[k]
      invariant forall k :: 0 <= k < |order| ==>
                order[k] in bySlot && out[k] == ToIdle(provider, quotes, order[k], bySlot[order[k]])
    {
      var id :| id in todo;
      out := out + [ToIdle(provider, quotes, id, bySlot[id])];
      order := order + [id];
      todo := todo - {id};
    }
  }

  /** Untagged but running instances, under their instance id. */
  method ListOrphans(provider: string, quotes: Quotes, orphans: seq<Ec2Instance>) returns (out: seq<Instance>)
    ensures |out| == |orphans|
    ensures forall k :: 0 <= k < |orphans| ==> out[k] == ToIdle(provider, quotes, orphans[k].instanceId, orphans[k])
  {
    out := [];
    var k := 0;
    while k < |orphans|
      invariant 0 <= k <= |orphans| && |out| == k
      invariant forall j :: 0 <= j < k ==> out[j] == ToIdle(provider, quotes, orphans[j].instanceId, orphans[j])
    {
      out := out + [ToIdle(provider, quotes, orphans[k].instanceId, orphans[k])];
      k := k + 1;
    }
  }

  lemma InParts(provider: string, quotes: Quotes, slots: seq<Instance>, owners: map<string, Ec2Instance>,
      orphans: seq<Ec2Instance>,
                order: seq<string>, head: seq<Instance>, tail: seq<Instance>, end: seq<Instance>)
    requires Leftovers(slots, owners, order) && |head| == |slots| && |tail| == |order| && |end| == |orphans|
    requires forall i :: 0 <= i < |slots| ==> head[i] == SlotEntry(provider, slots, owners, i)
    requires forall k :: 0 <= k < |order| ==>
              order[k] in owners && tail[k] == ToIdle(provider, quotes, order[k], owners[order[k]])
    requires forall k :: 0 <= k < |orphans| ==> end[k] == ToIdle(provider, quotes, orphans[k].instanceId, orphans[k])
    ensures Arranged(provider, quotes, slots, owners, orphans, order, head + tail + end)
  {
    hide SlotEntry, ToIdle, Leftovers;
  }

  lemma ArrangedIsFaithful(provider: string, quotes: Quotes, slots: seq<Instance>, managed: seq<Ec2Instance>,
                           instances: map<string, Ec2Instance>, order: seq<string>, out: seq<Instance>)
    requires forall s :: s in slots ==> SlotLike(s)
    requires forall id :: id in instances ==> instances[id].instanceId == id
    requires Answer(provider, quotes, slots, instances, managed, order, out)
    ensures Faithful(provider, instances, out)
  {
    hide BySlot, Orphans;
    BySlotIs(managed);
    var owners, orphans := BySlot(managed), Orphans(managed);
    forall e | e in out
      ensures SlotLike(e) || (e.state == Idle && BackedBy(provider, instances, e))
    {
      var p :| 0 <= p < |out| && out[p] == e;
      if p < |slots| {
        assert slots[p] in slots && e == SlotEntry(provider, slots, owners, p);
        if e != slots[p] {
          assert e.id in owners && owners[e.id] in managed;
        }
      } else if p < |slots| + |order| {
        var id := order[p - |slots|];
        assert out[|slots| + (p - |slots|)] == e && owners[id] in managed;
      } else {
        var k := p - |slots| - |order|;
        assert out[|slots| + |order| + k] == e && orphans[k] in orphans;
      }
    }
    forall id | id in instances && Visible(instances[id])
      ensures ListedIdle(out, Owner(instances[id]))
    {
      var i := instances[id];
      assert i in managed;
      if i.machineId == "" {
        var k :| 0 <= k < |orphans| && orphans[k] == i;
        assert out[|slots| + |order| + k].id == Owner(i);
      } else if NoSlot(slots, i.machineId) {
        var k :| 0 <= k < |order| && order[k] == i.machineId;
        assert out[|slots| + k].id == Owner(i);
      } else {
        var j := SlotOf(slots, i.machineId);
        assert out[j] == SlotEntry(provider, slots, owners, j);
      }
    }
  }

  /** The first slot of an id. */
  lemma {:induction false} SlotOf(slots: seq<Instance>, id: string) returns (j: nat)
    requires !NoSlot(slots, id)
    ensures j < |slots| && slots[j].id == id && FirstSlot(slots, j)
  {
    var last := |slots| - 1;
    var init := slots[..last];
    if NoSlot(init, id) {
      j := last;
      assert forall k :: 0 <= k < last ==> init[k].id != id;
    } else {
      j := SlotOf(init, id);
    }
  }

  /* ---- what an answer says ---- */

  /** The entry of an instance listed under its owner: its own type, zone and market, priced by the tables. */
  predicate EntryOf(provider: string, quotes: Quotes, i: Ec2Instance, e: Instance) {
    && e.id == (if i.machineId != "" then i.machineId else i.instanceId)
    && e.state == Idle && e.host.provider == provider && e.host.ref == i.instanceId
    && e.instanceType == i.instanceType && e.zone == i.zone
    && (if i.capacity in {"spot", "reserved", "bare_metal", "on_demand"} then CapacityString(e.capacity) == i.capacity
        else if i.spot then e.capacity == Spot else e.capacity == OnDemand)
    && e.price == quotes(e.id, e.instanceType, e.zone, e.capacity).price
    && e.interruption == quotes(e.id, e.instanceType, e.zone, e.capacity).interruption
    && e.allocatable == quotes(e.id, e.instanceType, e.zone, e.capacity).allocatable
    && e.resources == NilAttrs && e.labels == NilAttrs
  }

  /** Behind the slots every entry is that of a live instance, tagged or running, with its own facts. */
  lemma EntriesCarryTheirFacts(provider: string, quotes: Quotes, slots: seq<Instance>,
      instances: map<string, Ec2Instance>, managed: seq<Ec2Instance>, order: seq<string>, out: seq<Instance>, p: nat)
    requires Answer(provider, quotes, slots, instances, managed, order, out) && |slots| <= p < |out|
    ensures exists i :: i in managed && (i.machineId != "" || i.running) && EntryOf(provider, quotes, i, out[p])
  {
    hide BySlot, Orphans, EntryOf, ToIdle;
    BySlotIs(managed);
    var owners, orphans := BySlot(managed), Orphans(managed);
    if p < |slots| + |order| {
      var id := order[p - |slots|];
      assert out[|slots| + (p - |slots|)] == ToIdle(provider, quotes, id, owners[id]);
      EntryIs(provider, quotes, owners[id]);
    } else {
      var k := p - |slots| - |order|;
      assert out[|slots| + |order| + k] == ToIdle(provider, quotes, orphans[k].instanceId, orphans[k]);
      assert orphans[k] in orphans;
      EntryIs(provider, quotes, orphans[k]);
    }
  }

  lemma EntryIs(provider: string, quotes: Quotes, i: Ec2Instance)
    ensures EntryOf(provider, quotes, i, ToIdle(provider, quotes, Owner(i), i))
  {
  }

  /** A slot keeps its place and its facts; it is Idle, on an instance tagged with its id, or as configured. */
  lemma SlotsKeepTheirPlace(provider: string, quotes: Quotes, slots: seq<Instance>,
      instances: map<string, Ec2Instance>, managed: seq<Ec2Instance>, order: seq<string>, out: seq<Instance>, p: nat)
    requires Answer(provider, quotes, slots, instances, managed, order, out) && p < |slots|
    requires forall j :: 0 <= j < p ==> slots[j].id != slots[p].id
    ensures p < |out|
    ensures if slots[p].id != "" && exists i :: i in managed && i.machineId == slots[p].id
            then exists i :: i in managed && i.machineId == slots[p].id
                   && out[p] == slots[p].(state := Idle, host := HostRef(provider, i.instanceId))
            else out[p] == slots[p]
  {
    hide BySlot, Orphans, ToIdle;
    BySlotIs(managed);
    assert out[p] == SlotEntry(provider, slots, BySlot(managed), p);
  }
}
