/**
  azure/backend.go: Describe merges the configured slots with the managed VMs, settling which VM of
  a machine id owns its slot.
 */
module AzureInventory {
  import opened Machines
  import opened CapacityTags
  import SlotIdentity
  import Kit

  datatype Vm = Vm(
    resourceId: string,
    machineId: string,
    size: string,
    zone: string,
    spot: bool,
    capacity: string,
    running: bool,
    deleting: bool)

  datatype Offering = Offering(size: string, zone: string, capacity: CapacityType, count: int, resources: Attrs,
      labels: Attrs)

  /** The provider label and the price, interruption and size tables. */
  datatype Tables = Tables(
    provider: string,
    price: (string, CapacityType) -> Float64,
    interruption: (string, string, CapacityType) -> Float64,
    allocatable: string -> Attrs)

  /* ---- the order on resource ids ---- */

  predicate Before(a: string, b: string) {
    |b| > 0 && (|a| == 0 || a[0] < b[0] || (a[0] == b[0] && Before(a[1..], b[1..])))
  }

  lemma {:induction false} BeforeIsTotal(a: string, b: string)
    ensures (a == b) == (!Before(a, b) && !Before(b, a))
    ensures !(Before(a, b) && Before(b, a))
  {
    if |a| > 0 && |b| > 0 {
      BeforeIsTotal(a[1..], b[1..]);
      assert a == [a[0]] + a[1..] && b == [b[0]] + b[1..];
    }
  }

  lemma {:induction false} BeforeIsTransitive(a: string, b: string, c: string)
    requires Before(a, b) && Before(b, c)
    ensures Before(a, c)
  {
    if |a| > 0 && a[0] == b[0] == c[0] {
      BeforeIsTransitive(a[1..], b[1..], c[1..]);
    }
  }

  /* ---- slots ---- */

  function Slot(t: Tables, off: Offering, i: nat): Instance {
    var id := SlotIdentity.SlotId(t.provider, off.capacity, off.size, off.zone, i);
    Instance(id, NO_HOST, Speculative, off.size, off.zone, off.capacity, t.price(off.size, off.capacity),
             t.interruption(id, off.size, off.capacity), off.resources, t.allocatable(off.size), off.labels)
  }

  function SlotsOf(t: Tables, off: Offering, n: nat): seq<Instance> {
    if n == 0 then [] else SlotsOf(t, off, n - 1) + [Slot(t, off, n - 1)]
  }

  function Slots(t: Tables, offerings: seq<Offering>): (r: seq<Instance>)
    ensures forall s :: s in r ==> s.state == Speculative && s.host == NO_HOST
  {
    if |offerings| == 0 then []
    else
      var off := offerings[|offerings| - 1];
      SlotsAreSpeculative(t, off, if off.count > 0 then off.count else 0);
      Slots(t, offerings[..|offerings| - 1]) + SlotsOf(t, off, if off.count > 0 then off.count else 0)
  }

  lemma SlotsAreSpeculative(t: Tables, off: Offering, n: nat)
    ensures forall s :: s in SlotsOf(t, off, n) ==> s.state == Speculative && s.host == NO_HOST
  {
  }

  method SpeculativeSlots(t: Tables, offerings: seq<Offering>) returns (out: seq<Instance>)
    ensures out == Slots(t, offerings)
  {
    out := [];
    for k := 0 to |offerings|
      invariant out == Slots(t, offerings[..k])
    {
      var more := SlotsOfOffering(t, offerings[k]);
      out := out + more;
      assert offerings[..k + 1][..k] == offerings[..k];
    }
    assert offerings[..|offerings|] == offerings;
  }

  /** The inner loop; a count of zero or less configures no slot. */
  method SlotsOfOffering(t: Tables, off: Offering) returns (out: seq<Instance>)
    ensures out == SlotsOf(t, off, if off.count > 0 then off.count else 0)
  {
    out := [];
    var i := 0;
    while i < off.count
      invariant 0 <= i && (i <= off.count || i == 0)
      invariant out == SlotsOf(t, off, i)
    {
      out := out + [Slot(t, off, i)];
      i := i + 1;
    }
  }

  /* ---- resources of a size ---- */

  /** The first offering of the size in the zone decides; else the first of the size with any resources. */
  method ResourcesForSize(offerings: seq<Offering>, size: string, zone: string) returns (r: Attrs)
    ensures r == ResourcesFor(offerings, size, zone)
    ensures forall k :: 0 <= k < |offerings| && offerings[k].size == size && offerings[k].zone == zone ==>
              exists j :: 0 <= j <= k && offerings[j].size == size && offerings[j].zone == zone
                && r == offerings[j].resources
  {
    var fallback := NilAttrs;
    for k := 0 to |offerings|
      invariant forall j :: 0 <= j < k ==> !(offerings[j].size == size && offerings[j].zone == zone)
      invariant fallback == Fallback(offerings[..k], size)
    {
      var off := offerings[k];
      assert offerings[..k + 1][..k] == offerings[..k];
      if off.size == size {
        if off.zone == zone {
          ExactIs(offerings, size, zone, k);
          return off.resources;
        }
        if fallback == NilAttrs {
          fallback := off.resources;
        }
      }
    }
    assert offerings[..|offerings|] == offerings;
    NoExact(offerings, size, zone);
    r := fallback;
  }

  function Exact(offerings: seq<Offering>, size: string, zone: string): Option<Offering> {
    if |offerings| == 0 then None
    else if offerings[0].size == size && offerings[0].zone == zone then Some(offerings[0])
    else Exact(offerings[1..], size, zone)
  }

  function Fallback(offerings: seq<Offering>, size: string): Attrs {
    if |offerings| == 0 then NilAttrs
    else
      var last, rest := offerings[|offerings| - 1], Fallback(offerings[..|offerings| - 1], size);
      if last.size == size && rest == NilAttrs then last.resources else rest
  }

  function ResourcesFor(offerings: seq<Offering>, size: string, zone: string): Attrs {
    var exact := Exact(offerings, size, zone);
    if exact.Some? then exact.value.resources else Fallback(offerings, size)
  }

  lemma {:induction false} ExactIs(offerings: seq<Offering>, size: string, zone: string, k: nat)
    requires k < |offerings| && offerings[k].size == size && offerings[k].zone == zone
    requires forall j :: 0 <= j < k ==> !(offerings[j].size == size && offerings[j].zone == zone)
    ensures Exact(offerings, size, zone) == Some(offerings[k])
  {
    if k > 0 {
      ExactIs(offerings[1..], size, zone, k - 1);
    }
  }

  lemma {:induction false} NoExact(offerings: seq<Offering>, size: string, zone: string)
    requires forall j :: 0 <= j < |offerings| ==> !(offerings[j].size == size && offerings[j].zone == zone)
    ensures Exact(offerings, size, zone) == None
  {
    if |offerings| > 0 {
      NoExact(offerings[1..], size, zone);
    }
  }

  /**
    A VM gets back the resources of its own size or none at all. An exact (size, zone) offering
    decides, resources or not; without one, nil comes back exactly when no offering of that size has
    resources to give.
   */
  lemma {:induction false} RecoveredResources(offerings: seq<Offering>, size: string, zone: string)
    ensures var r := ResourcesFor(offerings, size, zone);
            && (r != NilAttrs ==> exists off :: off in offerings && off.size == size && off.resources == r)
            && ((exists off :: off in offerings && off.size == size && off.zone == zone) ==>
                  exists off :: off in offerings && off.size == size && off.zone == zone && off.resources == r)
            && ((forall off :: off in offerings && off.size == size ==> off.zone != zone) ==>
                  (r == NilAttrs <==> forall off :: off in offerings && off.size == size ==> off.resources == NilAttrs))
  {
    ExactMember(offerings, size, zone);
    FallbackMember(offerings, size);
  }

  lemma {:induction false} ExactMember(offerings: seq<Offering>, size: string, zone: string)
    ensures var e := Exact(offerings, size, zone);
            if e.Some? then e.value in offerings && e.value.size == size && e.value.zone == zone
            else forall off :: off in offerings ==> !(off.size == size && off.zone == zone)
  {
    if |offerings| > 0 {
      assert offerings == [offerings[0]] + offerings[1..];
      ExactMember(offerings[1..], size, zone);
    }
  }

  lemma {:induction false} FallbackMember(offerings: seq<Offering>, size: string)
    ensures var r := Fallback(offerings, size);
            && (r != NilAttrs ==> exists off :: off in offerings && off.size == size && off.resources == r)
            && (r == NilAttrs <==> forall off :: off in offerings && off.size == size ==> off.resources == NilAttrs)
  {
    if |offerings| > 0 {
      var init := offerings[..|offerings| - 1];
      assert offerings == init + [offerings[|offerings| - 1]];
      FallbackMember(init, size);
    }
  }

  /* ---- who owns a machine id ---- */

  predicate Claims(v: Vm) {
    v.machineId != "" && !v.deleting
  }

  predicate IsStray(v: Vm) {
    v.machineId == "" && v.running
  }

  function Claimants(managed: seq<Vm>, id: string): seq<Vm> {
    if |managed| == 0 then []
    else
      var last, rest := managed[|managed| - 1], Claimants(managed[..|managed| - 1], id);
      if Claims(last) && last.machineId == id then rest + [last] else rest
  }

  function Strays(managed: seq<Vm>): seq<Vm> {
    if |managed| == 0 then []
    else
      var last, rest := managed[|managed| - 1], Strays(managed[..|managed| - 1]);
      if IsStray(last) then rest + [last] else rest
  }

  function Ids(managed: seq<Vm>): set<string> {
    set v | v in managed && Claims(v) :: v.machineId
  }

  /** The first of the VMs with the smallest resource id. */
  function Least(vms: seq<Vm>): Vm
    requires |vms| > 0
  {
    var last := vms[|vms| - 1];
    if |vms| == 1 then last
    else
      var rest := Least(vms[..|vms| - 1]);
      if Before(last.resourceId, rest.resourceId) then last else rest
  }

  function Losers(vms: seq<Vm>, owner: Vm): seq<Vm> {
    if |vms| == 0 then []
    else
      var last, rest := vms[|vms| - 1], Losers(vms[..|vms| - 1], owner);
      if last.resourceId != owner.resourceId then rest + [last] else rest
  }

  lemma {:induction false} ClaimantsAre(managed: seq<Vm>, id: string)
    ensures forall v :: v in Claimants(managed, id) <==> v in managed && Claims(v) && v.machineId == id
    ensures |Claimants(managed, id)| > 0 <==> id in Ids(managed)
  {
    if |managed| > 0 {
      var init := managed[..|managed| - 1];
      assert managed == init + [managed[|managed| - 1]];
      ClaimantsAre(init, id);
    }
    var c := Claimants(managed, id);
    if |c| > 0 {
      assert c[0] in c;
    }
  }

  function Owners(managed: seq<Vm>): map<string, Vm> {
    map id | id in Ids(managed) :: (ClaimantsAre(managed, id); Least(Claimants(managed, id)))
  }

  lemma OwnersAre(managed: seq<Vm>)
    ensures Owners(managed).Keys == Ids(managed)
    ensures forall id :: id in Ids(managed) ==>
              |Claimants(managed, id)| > 0 && Owners(managed)[id] == Least(Claimants(managed, id))
  {
    forall id | id in Ids(managed)
      ensures |Claimants(managed, id)| > 0
    {
      ClaimantsAre(managed, id);
    }
  }

  function AllLosers(managed: seq<Vm>, order: seq<string>): seq<Vm>
    requires forall id :: id in order ==> id in Ids(managed)
  {
    if |order| == 0 then []
    else
      var id := order[|order| - 1];
      AllLosers(managed, order[..|order| - 1]) + Losers(Claimants(managed, id), Owners(managed)[id])
  }

  /* ---- the entries ---- */

  function Recovered(v: Vm): CapacityType {
    var c := ParseCapacityTag(v.capacity);
    if c != CapacityUnspecified then c else if v.spot then Spot else OnDemand
  }

  function VmToIdle(t: Tables, offerings: seq<Offering>, id: string, v: Vm): Instance {
    var c := Recovered(v);
    Instance(id, HostRef(t.provider, v.resourceId), Idle, v.size, v.zone, c, t.price(v.size, c),
             t.interruption(id, v.size, c), ResourcesFor(offerings, v.size, v.zone), t.allocatable(v.size), NilAttrs)
  }

  predicate NoSlot(slots: seq<Instance>, id: string) {
    forall j :: 0 <= j < |slots| ==> slots[j].id != id
  }

  function SlotEntries(t: Tables, slots: seq<Instance>, owners: map<string, Vm>): (r: seq<Instance>)
    ensures |r| == |slots|
  {
    if |slots| == 0 then []
    else
      var init, last := slots[..|slots| - 1], slots[|slots| - 1];
      SlotEntries(t, init, owners)
        + [if last.id in owners && NoSlot(init, last.id)
           then last.(state := Idle, host := HostRef(t.provider, owners[last.id].resourceId)) else last]
  }

  function Spare(t: Tables, offerings: seq<Offering>, owners: map<string, Vm>, order: seq<string>): seq<Instance>
    requires forall id :: id in order ==> id in owners
  {
    if |order| == 0 then []
    else
      var id := order[|order| - 1];
      Spare(t, offerings, owners, order[..|order| - 1])
        + (if owners[id].zone == "" then [] else [VmToIdle(t, offerings, id, owners[id])])
  }

  function Orphaned(t: Tables, offerings: seq<Offering>, vms: seq<Vm>): seq<Instance> {
    if |vms| == 0 then []
    else
      var v := vms[|vms| - 1];
      Orphaned(t, offerings, vms[..|vms| - 1])
        + OrphanEntry(t, offerings, v)
  }

  function OrphanEntry(t: Tables, offerings: seq<Offering>, v: Vm): seq<Instance> {
    if v.zone == "" then [] else [VmToIdle(t, offerings, v.resourceId, v)]
  }

  ghost predicate Enumerates(order: seq<string>, ids: set<string>) {
    && (forall id :: id in order <==> id in ids)
    && (forall j, k :: 0 <= j < k < |order| ==> order[j] != order[k])
  }

  function Slotless(slots: seq<Instance>, owners: map<string, Vm>): set<string> {
    set id | id in owners && NoSlot(slots, id)
  }

  /** The whole answer, given the two orders in which Go happened to walk its maps. */
  ghost predicate Describes(t: Tables, offerings: seq<Offering>, managed: seq<Vm>, contested: seq<string>,
      spare: seq<string>, out: seq<Instance>) {
    var slots, owners := Slots(t, offerings), Owners(managed);
    && Enumerates(contested, Ids(managed)) && Enumerates(spare, Slotless(slots, owners))
    && out == SlotEntries(t, slots, owners) + Spare(t, offerings, owners, spare)
              + Orphaned(t, offerings, Strays(managed) + AllLosers(managed, contested))
  }

  method Describe(t: Tables, offerings: seq<Offering>, managed: seq<Vm>)
    returns (out: seq<Instance>)
    ensures exists contested, spare :: Describes(t, offerings, managed, contested, spare, out)
  {
    ghost var contested, spare;
    var byMachine, orphans := Group(managed);
    var bySlot, losers;
    bySlot, losers, contested := Elect(managed, byMachine);
    orphans := orphans + losers;
    var slots := SpeculativeSlots(t, offerings);
    var rest;
    out, rest := FillSlots(t, slots, bySlot);
    var more;
    more, spare := ListSpare(t, offerings, bySlot, rest);
    out := out + more;
    var end := ListOrphans(t, offerings, orphans);
    out := out + end;
    assert rest.Keys == Slotless(slots, bySlot);
    assert Describes(t, offerings, managed, contested, spare, out);
  }

  method Group(managed: seq<Vm>) returns (byMachine: map<string, seq<Vm>>, orphans: seq<Vm>)
    ensures byMachine.Keys == Ids(managed)
    ensures forall id :: id in byMachine ==> byMachine[id] == Claimants(managed, id)
    ensures orphans == Strays(managed)
  {
    hide Claimants, Strays, Ids;
    byMachine, orphans := map[], [];
    NoneYet(managed);
    for k := 0 to |managed|
      invariant forall id :: id in byMachine ==> byMachine[id] == Claimants(managed[..k], id)
      invariant forall id :: id !in byMachine ==> Claimants(managed[..k], id) == []
      invariant forall id :: id in byMachine ==> byMachine[id] != []
      invariant orphans == Strays(managed[..k])
    {
      var vm := managed[k];
      OneVmMore(managed, k);
      if vm.machineId != "" && !vm.deleting {
        var claimants := if vm.machineId in byMachine then byMachine[vm.machineId] else [];
        byMachine := byMachine[vm.machineId := claimants + [vm]];
      } else if vm.machineId != "" {
      } else if vm.running {
        orphans := orphans + [vm];
      }
    }
    assert managed[..|managed|] == managed;
    forall id
      ensures id in byMachine <==> id in Ids(managed)
    {
      ClaimantsAre(managed, id);
    }
  }

  lemma NoneYet(managed: seq<Vm>)
    ensures Strays(managed[..0]) == [] && forall id :: Claimants(managed[..0], id) == []
  {
  }

  lemma OneVmMore(managed: seq<Vm>, k: nat)
    requires k < |managed|
    ensures var vm := managed[k];
            && (forall id :: Claimants(managed[..k + 1], id) ==
                  if Claims(vm) && vm.machineId == id then Claimants(managed[..k], id) + [vm]
                  else Claimants(managed[..k], id))
            && Strays(managed[..k + 1]) == if IsStray(vm) then Strays(managed[..k]) + [vm] else Strays(managed[..k])
  {
    assert managed[..k + 1][..k] == managed[..k];
  }

  method Elect(ghost managed: seq<Vm>, byMachine: map<string, seq<Vm>>)
    returns (bySlot: map<string, Vm>, losers: seq<Vm>, ghost order: seq<string>)
    requires byMachine.Keys == Ids(managed)
    requires forall id :: id in byMachine ==> byMachine[id] == Claimants(managed, id)
    ensures bySlot == Owners(managed) && Enumerates(order, Ids(managed)) && losers == AllLosers(managed, order)
  {
    hide Owners, Ids, Least, Losers, Claimants;
    OwnersAre(managed);
    bySlot, losers, order := map[], [], [];
    var todo := byMachine.Keys;
    while todo != {}
      invariant todo <= Ids(managed)
      invariant forall id :: id in order <==> id in Ids(managed) && id !in todo
      invariant forall j, k :: 0 <= j < k < |order| ==> order[j] != order[k]
      invariant bySlot.Keys == Ids(managed) - todo
      invariant forall id :: id in bySlot ==> bySlot[id] == Owners(managed)[id]
      invariant losers == AllLosers(managed, order)
    {
      var mid :| mid in todo;
      var owner, beaten := Choose(byMachine[mid]);
      bySlot := bySlot[mid := owner];
      losers := losers + beaten;
      assert (order + [mid])[..|order|] == order;
      order := order + [mid];
      todo := todo - {mid};
    }
  }

  method Choose(vms: seq<Vm>) returns (owner: Vm, losers: seq<Vm>)
    requires |vms| > 0
    ensures owner == Least(vms) && losers == Losers(vms, owner)
  {
    owner := vms[0];
    for k := 1 to |vms|
      invariant owner == Least(vms[..k])
    {
      assert vms[..k + 1][..k] == vms[..k];
      if Before(vms[k].resourceId, owner.resourceId) {
        owner := vms[k];
      }
    }
    assert vms[..|vms|] == vms;
    losers := [];
    for k := 0 to |vms|
      invariant losers == Losers(vms[..k], owner)
    {
      assert vms[..k + 1][..k] == vms[..k];
      if vms[k].resourceId != owner.resourceId {
        losers := losers + [vms[k]];
      }
    }
  }

  method FillSlots(t: Tables, slots: seq<Instance>, owners: map<string, Vm>)
    returns (out: seq<Instance>, rest: map<string, Vm>)
    ensures out == SlotEntries(t, slots, owners)
    ensures rest.Keys == Slotless(slots, owners) && forall id :: id in rest ==> rest[id] == owners[id]
  {
    out, rest := [], owners;
    for k := 0 to |slots|
      invariant out == SlotEntries(t, slots[..k], owners)
      invariant forall id :: id in rest <==> id in owners && NoSlot(slots[..k], id)
      invariant forall id :: id in rest ==> rest[id] == owners[id]
    {
      var slot := slots[k];
      assert slots[..k + 1] == slots[..k] + [slot];
      assert slots[..k + 1][..k] == slots[..k];
      OneSlotMore(slots[..k], slot);
      if slot.id in rest {
        slot := slot.(state := Idle, host := HostRef(t.provider, rest[slot.id].resourceId));
        rest := rest - {slot.id};
      }
      out := out + [slot];
    }
    assert slots[..|slots|] == slots;
  }

  lemma OneSlotMore(slots: seq<Instance>, s: Instance)
    ensures forall id :: NoSlot(slots + [s], id) <==> NoSlot(slots, id) && s.id != id
  {
    forall id | NoSlot(slots + [s], id)
      ensures NoSlot(slots, id) && s.id != id
    {
      assert (slots + [s])[|slots|] == s;
      assert forall j :: 0 <= j < |slots| ==> (slots + [s])[j] == slots[j];
    }
  }

  method ListSpare(t: Tables, offerings: seq<Offering>, ghost owners: map<string, Vm>, rest: map<string, Vm>)
    returns (out: seq<Instance>, ghost order: seq<string>)
    requires forall id :: id in rest ==> id in owners && rest[id] == owners[id]
    ensures Enumerates(order, rest.Keys) && out == Spare(t, offerings, owners, order)
  {
    out, order := [], [];
    var todo := rest.Keys;
    while todo != {}
      invariant todo <= rest.Keys
      invariant forall id :: id in order <==> id in rest && id !in todo
      invariant forall j, k :: 0 <= j < k < |order| ==> order[j] != order[k]
      invariant out == Spare(t, offerings, owners, order)
    {
      var id :| id in todo;
      var vm := rest[id];
      assert (order + [id])[..|order|] == order;
      if vm.zone != "" {
        var e := ToIdle(t, offerings, id, vm);
        out := out + [e];
      }
      order := order + [id];
      todo := todo - {id};
    }
  }

  method ListOrphans(t: Tables, offerings: seq<Offering>, orphans: seq<Vm>) returns (out: seq<Instance>)
    ensures out == Orphaned(t, offerings, orphans)
  {
    out := [];
    for k := 0 to |orphans|
      invariant out == Orphaned(t, offerings, orphans[..k])
    {
      assert orphans[..k + 1][..k] == orphans[..k];
      if orphans[k].zone != "" {
        var e := ToIdle(t, offerings, orphans[k].resourceId, orphans[k]);
        out := out + [e];
      }
    }
    assert orphans[..|orphans|] == orphans;
  }

  method ToIdle(t: Tables, offerings: seq<Offering>, id: string, v: Vm) returns (e: Instance)
    ensures e == VmToIdle(t, offerings, id, v)
  {
    var c := ParseCapacityTag(v.capacity);
    if c == CapacityUnspecified {
      c := OnDemand;
      if v.spot {
        c := Spot;
      }
    }
    var resources := ResourcesForSize(offerings, v.size, v.zone);
    e := Instance(id, HostRef(t.provider, v.resourceId), Idle, v.size, v.zone, c, t.price(v.size, c),
                  t.interruption(id, v.size, c), resources, t.allocatable(v.size), NilAttrs);
  }

  /* ---- ownership is settled by the inventory, not by the order it came in ---- */

  predicate DistinctRefs(managed: seq<Vm>) {
    forall j, k :: 0 <= j < k < |managed| ==> managed[j].resourceId != managed[k].resourceId
  }

  ghost predicate IsOwner(managed: seq<Vm>, v: Vm) {
    v in managed && Claims(v) && forall o :: o in managed && Rival(o, v) ==> Before(v.resourceId, o.resourceId)
  }

  predicate Rival(o: Vm, v: Vm) {
    Claims(o) && o.machineId == v.machineId && o != v
  }

  lemma RefIdentifies(managed: seq<Vm>, a: Vm, b: Vm)
    requires DistinctRefs(managed) && a in managed && b in managed && a.resourceId == b.resourceId
    ensures a == b
  {
  }

  lemma {:induction false} LeastIs(vms: seq<Vm>)
    requires |vms| > 0
    ensures Least(vms) in vms && forall v :: v in vms ==> !Before(v.resourceId, Least(vms).resourceId)
  {
    var last := vms[|vms| - 1];
    if |vms| > 1 {
      var init := vms[..|vms| - 1];
      assert vms == init + [last];
      LeastIs(init);
      forall v | v in vms
        ensures !Before(v.resourceId, Least(vms).resourceId)
      {
        BeforeIsTotal(v.resourceId, last.resourceId);
        if v in init && Before(v.resourceId, last.resourceId) && Before(last.resourceId, Least(init).resourceId) {
          BeforeIsTransitive(v.resourceId, last.resourceId, Least(init).resourceId);
        }
      }
    } else {
      BeforeIsTotal(last.resourceId, last.resourceId);
    }
  }

  /** The owner of a machine id is the one claimant no other claimant precedes. */
  lemma OwnerIsLeast(managed: seq<Vm>, id: string, v: Vm)
    requires DistinctRefs(managed)
    ensures id in Owners(managed) && Owners(managed)[id] == v <==> IsOwner(managed, v) && v.machineId == id
  {
    ClaimantsAre(managed, id);
    if id in Owners(managed) {
      var c := Claimants(managed, id);
      LeastIs(c);
      var owner := Owners(managed)[id];
      forall o | o in managed && Rival(o, owner)
        ensures Before(owner.resourceId, o.resourceId)
      {
        BeforeIsTotal(o.resourceId, owner.resourceId);
        if o.resourceId == owner.resourceId {
          RefIdentifies(managed, o, owner);
        }
      }
      assert IsOwner(managed, owner);
      BeforeIsTotal(v.resourceId, owner.resourceId);
    }
  }

  ghost predicate SameVms(a: seq<Vm>, b: seq<Vm>) {
    forall v :: v in a <==> v in b
  }

  lemma OwnersAgree(a: seq<Vm>, b: seq<Vm>)
    requires DistinctRefs(a) && DistinctRefs(b) && SameVms(a, b)
    ensures Owners(a) == Owners(b)
  {
    forall v
      ensures IsOwner(a, v) <==> IsOwner(b, v)
    {
    }
    forall id
      ensures id in Owners(a) <==> id in Owners(b)
      ensures id in Owners(a) ==> Owners(a)[id] == Owners(b)[id]
    {
      if id in Owners(a) {
        OwnerIsLeast(a, id, Owners(a)[id]);
        OwnerIsLeast(b, id, Owners(a)[id]);
      }
      if id in Owners(b) {
        OwnerIsLeast(a, id, Owners(b)[id]);
        OwnerIsLeast(b, id, Owners(b)[id]);
      }
    }
  }

  /* ---- how often each VM occurs ---- */

  lemma {:induction false} StraysCount(managed: seq<Vm>, v: Vm)
    ensures multiset(Strays(managed))[v] == if IsStray(v) then multiset(managed)[v] else 0
  {
    if |managed| > 0 {
      assert managed == managed[..|managed| - 1] + [managed[|managed| - 1]];
      StraysCount(managed[..|managed| - 1], v);
    }
  }

  lemma {:induction false} ClaimantsCount(managed: seq<Vm>, id: string, v: Vm)
    ensures multiset(Claimants(managed, id))[v] == if Claims(v) && v.machineId == id then multiset(managed)[v] else 0
  {
    if |managed| > 0 {
      assert managed == managed[..|managed| - 1] + [managed[|managed| - 1]];
      ClaimantsCount(managed[..|managed| - 1], id, v);
    }
  }

  lemma {:induction false} LosersCount(vms: seq<Vm>, owner: Vm, v: Vm)
    ensures multiset(Losers(vms, owner))[v] == if v.resourceId != owner.resourceId then multiset(vms)[v] else 0
  {
    if |vms| > 0 {
      assert vms == vms[..|vms| - 1] + [vms[|vms| - 1]];
      LosersCount(vms[..|vms| - 1], owner, v);
    }
  }

  /** Every beaten claimant becomes an orphan as often as it was listed; nothing else does. */
  lemma {:induction false} AllLosersCount(managed: seq<Vm>, order: seq<string>, v: Vm)
    requires forall id :: id in order ==> id in Ids(managed)
    requires forall j, k :: 0 <= j < k < |order| ==> order[j] != order[k]
    ensures multiset(AllLosers(managed, order))[v] ==
              if Claims(v) && v.machineId in order && v.resourceId != Owners(managed)[v.machineId].resourceId
              then multiset(managed)[v] else 0
  {
    hide Owners, Claimants, Losers, Ids;
    OwnersAre(managed);
    if |order| > 0 {
      var init, last := order[..|order| - 1], order[|order| - 1];
      assert order == init + [last];
      AllLosersCount(managed, init, v);
      ClaimantsCount(managed, last, v);
      LosersCount(Claimants(managed, last), Owners(managed)[last], v);
    }
  }

  /** Entries whose host is this resource. */
  function Hosting(out: seq<Instance>, ref: string): nat {
    if |out| == 0 then 0
    else
      var last := out[|out| - 1];
      Hosting(out[..|out| - 1], ref) + (if last.state == Idle && last.host.ref == ref then 1 else 0)
  }

  lemma {:induction false} HostingSum(a: seq<Instance>, b: seq<Instance>, ref: string)
    ensures Hosting(a + b, ref) == Hosting(a, ref) + Hosting(b, ref)
  {
    if |b| == 0 {
      assert a + b == a;
    } else {
      assert (a + b)[..|a + b| - 1] == a + b[..|b| - 1];
      HostingSum(a, b[..|b| - 1], ref);
    }
  }

  /** Only the owner of machine id k may have this resource id. */
  ghost predicate OnlyAt(owners: map<string, Vm>, ref: string, k: string) {
    forall id :: id in owners && owners[id].resourceId == ref ==> id == k
  }

  lemma {:induction false} SlotsHosting(t: Tables, slots: seq<Instance>, owners: map<string, Vm>, ref: string,
      k: string)
    requires OnlyAt(owners, ref, k) && forall s :: s in slots ==> s.state == Speculative
    ensures Hosting(SlotEntries(t, slots, owners), ref) ==
              if k in owners && owners[k].resourceId == ref && !NoSlot(slots, k) then 1 else 0
  {
    if |slots| > 0 {
      var init, last := slots[..|slots| - 1], slots[|slots| - 1];
      assert slots == init + [last];
      SlotsHosting(t, init, owners, ref, k);
      OneSlotMore(init, last);
      assert SlotEntries(t, slots, owners)[..|slots| - 1] == SlotEntries(t, init, owners);
    }
  }

  lemma {:induction false} SpareHosting(t: Tables, offerings: seq<Offering>, owners: map<string, Vm>,
      order: seq<string>, ref: string, k: string)
    requires OnlyAt(owners, ref, k) && forall id :: id in order ==> id in owners
    requires forall i, j :: 0 <= i < j < |order| ==> order[i] != order[j]
    ensures Hosting(Spare(t, offerings, owners, order), ref) ==
              if k in order && owners[k].resourceId == ref && owners[k].zone != "" then 1 else 0
  {
    if |order| > 0 {
      var init, last := order[..|order| - 1], order[|order| - 1];
      assert order == init + [last];
      SpareHosting(t, offerings, owners, init, ref, k);
      var entry := VmToIdle(t, offerings, last, owners[last]);
      HostingSum(Spare(t, offerings, owners, init), if owners[last].zone == "" then [] else [entry], ref);
    }
  }

  lemma {:induction false} OrphansHosting(t: Tables, offerings: seq<Offering>, vms: seq<Vm>, v: Vm)
    requires forall o :: o in vms && o.resourceId == v.resourceId ==> o == v
    ensures Hosting(Orphaned(t, offerings, vms), v.resourceId) == if v.zone == "" then 0 else multiset(vms)[v]
  {
    if |vms| > 0 {
      hide VmToIdle;
      var init, last := vms[..|vms| - 1], vms[|vms| - 1];
      assert vms == init + [last];
      OrphansHosting(t, offerings, init, v);
      HostingSum(Orphaned(t, offerings, init), OrphanEntry(t, offerings, last), v.resourceId);
      EntryHosting(t, offerings, last, v);
    }
  }

  lemma EntryHosting(t: Tables, offerings: seq<Offering>, last: Vm, v: Vm)
    requires last.resourceId == v.resourceId ==> last == v
    ensures Hosting(OrphanEntry(t, offerings, last), v.resourceId) == if last == v && v.zone != "" then 1 else 0
  {
  }

  /** The VMs the listing must carry: zoned, or at least matched by a configured slot. */
  ghost predicate Surfaced(slots: seq<Instance>, managed: seq<Vm>, v: Vm) {
    && (if v.machineId != "" then !v.deleting else v.running)
    && (v.zone != "" || (IsOwner(managed, v) && !NoSlot(slots, v.machineId)))
  }

  /** Inventory is conserved: a VM hosts exactly one entry if it must be surfaced and none otherwise. */
  lemma HostedOnce(t: Tables, offerings: seq<Offering>, managed: seq<Vm>, contested: seq<string>, spare: seq<string>,
      out: seq<Instance>, v: Vm)
    requires DistinctRefs(managed) && Describes(t, offerings, managed, contested, spare, out) && v in managed
    ensures Hosting(out, v.resourceId) == if Surfaced(Slots(t, offerings), managed, v) then 1 else 0
  {
    hide Slots, Owners, SlotEntries, Spare, Orphaned, Strays, AllLosers, Ids, Claimants;
    var slots, owners, k, ref := Slots(t, offerings), Owners(managed), v.machineId, v.resourceId;
    OwnersAre(managed);
    forall id | id in owners && owners[id].resourceId == ref
      ensures id == k && owners[id] == v
    {
      OwnerIsLeast(managed, id, owners[id]);
      RefIdentifies(managed, owners[id], v);
    }
    OwnerIsLeast(managed, k, v);
    var a, b := SlotEntries(t, slots, owners), Spare(t, offerings, owners, spare);
    var c := Strays(managed) + AllLosers(managed, contested);
    SlotsHosting(t, slots, owners, ref, k);
    SpareHosting(t, offerings, owners, spare, ref, k);
    OrphansAre(managed, contested, v);
    OrphansHosting(t, offerings, c, v);
    HostingSum(a, b, ref);
    HostingSum(a + b, Orphaned(t, offerings, c), ref);
  }

  /** A listed VM is an orphan once if it strayed or was beaten, and never otherwise. */
  lemma OrphansAre(managed: seq<Vm>, contested: seq<string>, v: Vm)
    requires DistinctRefs(managed) && Enumerates(contested, Ids(managed)) && v in managed
    ensures var c := Strays(managed) + AllLosers(managed, contested);
            && multiset(c)[v] == (if IsStray(v) || (Claims(v) && !IsOwner(managed, v)) then 1 else 0)
            && forall o :: o in c && o.resourceId == v.resourceId ==> o == v
  {
    hide Strays, AllLosers, Claimants, Owners;
    OwnersAre(managed);
    var c := Strays(managed) + AllLosers(managed, contested);
    ListedOnce(managed, v);
    StraysCount(managed, v);
    AllLosersCount(managed, contested, v);
    if Claims(v) {
      ClaimantsAre(managed, v.machineId);
      OwnerIsLeast(managed, v.machineId, v);
      var owner := Owners(managed)[v.machineId];
      OwnerIsLeast(managed, v.machineId, owner);
      if owner.resourceId == v.resourceId {
        RefIdentifies(managed, owner, v);
      }
    }
    forall o | o in c && o.resourceId == v.resourceId
      ensures o == v
    {
      StraysCount(managed, o);
      AllLosersCount(managed, contested, o);
      assert multiset(c)[o] > 0;
      assert o in multiset(managed);
      RefIdentifies(managed, o, v);
    }
  }

  lemma {:induction false} ListedOnce(managed: seq<Vm>, v: Vm)
    requires DistinctRefs(managed) && v in managed
    ensures multiset(managed)[v] == 1
  {
    var init, last := managed[..|managed| - 1], managed[|managed| - 1];
    assert managed == init + [last];
    if v in init {
      ListedOnce(init, v);
    }
  }

  /* ---- slots ---- */

  lemma {:induction false} SlotEntryIs(t: Tables, slots: seq<Instance>, owners: map<string, Vm>, i: nat)
    requires i < |slots|
    ensures SlotEntries(t, slots, owners)[i] ==
              if slots[i].id in owners && NoSlot(slots[..i], slots[i].id)
              then slots[i].(state := Idle, host := HostRef(t.provider, owners[slots[i].id].resourceId)) else slots[i]
  {
    var n := |slots| - 1;
    if i < n {
      SlotEntryIs(t, slots[..n], owners, i);
      assert slots[..n][..i] == slots[..i];
    }
  }

  /**
    Every slot keeps its place and its facts; with distinct slot ids it stays Speculative exactly
    when no VM that is not being deleted carries its id, and is otherwise backed by the owner.
   */
  lemma SlotsKeepTheirPlace(t: Tables, offerings: seq<Offering>, managed: seq<Vm>, contested: seq<string>,
      spare: seq<string>, out: seq<Instance>, i: nat)
    requires DistinctRefs(managed) && Describes(t, offerings, managed, contested, spare, out)
    requires i < |Slots(t, offerings)|
    requires Kit.DistinctIds(Slots(t, offerings))
    ensures |out| >= |Slots(t, offerings)|
    ensures var slot := Slots(t, offerings)[i];
            && out[i].(state := slot.state, host := slot.host) == slot
            && (out[i].state == Speculative <==> forall v :: v in managed && v.machineId == slot.id ==> !Claims(v))
            && (out[i].state != Speculative ==> exists v :: IsOwner(managed, v) && v.machineId == slot.id
                                                  && out[i].state == Idle
                                                  && out[i].host == HostRef(t.provider, v.resourceId))
  {
    hide Slots, SlotEntries, Spare, Orphaned, Strays, AllLosers, Claimants, Owners;
    var slots, owners := Slots(t, offerings), Owners(managed);
    var slot := slots[i];
    SlotEntryIs(t, slots, owners, i);
    assert out[i] == SlotEntries(t, slots, owners)[i];
    assert slot in slots && NoSlot(slots[..i], slot.id);
    OwnersAre(managed);
    if slot.id in owners {
      OwnerIsLeast(managed, slot.id, owners[slot.id]);
    }
  }

  /* ---- order independence ---- */

  lemma {:induction false} SpareMembers(t: Tables, offerings: seq<Offering>, owners: map<string, Vm>,
      order: seq<string>, e: Instance)
    requires forall id :: id in order ==> id in owners
    ensures e in Spare(t, offerings, owners, order) <==>
              exists id :: id in order && owners[id].zone != "" && e == VmToIdle(t, offerings, id, owners[id])
  {
    if |order| > 0 {
      var init := order[..|order| - 1];
      assert order == init + [order[|order| - 1]];
      SpareMembers(t, offerings, owners, init, e);
    }
  }

  lemma {:induction false} OrphanedMembers(t: Tables, offerings: seq<Offering>, vms: seq<Vm>, e: Instance)
    ensures e in Orphaned(t, offerings, vms) <==>
              exists v :: v in vms && v.zone != "" && e == VmToIdle(t, offerings, v.resourceId, v)
  {
    if |vms| > 0 {
      var init := vms[..|vms| - 1];
      assert vms == init + [vms[|vms| - 1]];
      OrphanedMembers(t, offerings, init, e);
    }
  }

  /** Neither the order of the listing nor Go's map order changes what is listed. */
  lemma OrderDoesNotMatter(t: Tables, offerings: seq<Offering>, a: seq<Vm>, contestedA: seq<string>,
      spareA: seq<string>, outA: seq<Instance>,
                           b: seq<Vm>, contestedB: seq<string>, spareB: seq<string>, outB: seq<Instance>, e: Instance)
    requires DistinctRefs(a) && DistinctRefs(b) && SameVms(a, b)
    requires Describes(t, offerings, a, contestedA, spareA, outA)
    requires Describes(t, offerings, b, contestedB, spareB, outB)
    ensures e in outA <==> e in outB
  {
    hide Slots, Owners, SlotEntries, Spare, Orphaned, Strays, AllLosers, Claimants, VmToIdle, Ids;
    OwnersAgree(a, b);
    OwnersAre(a);
    OwnersAre(b);
    var owners := Owners(a);
    SpareMembers(t, offerings, owners, spareA, e);
    SpareMembers(t, offerings, owners, spareB, e);
    var ca, cb := Strays(a) + AllLosers(a, contestedA), Strays(b) + AllLosers(b, contestedB);
    OrphanedMembers(t, offerings, ca, e);
    OrphanedMembers(t, offerings, cb, e);
    forall v
      ensures v in ca <==> v in cb
    {
      OrphanMembers(a, contestedA, v);
      OrphanMembers(b, contestedB, v);
    }
  }

  lemma OrphanMembers(managed: seq<Vm>, contested: seq<string>, v: Vm)
    requires Enumerates(contested, Ids(managed))
    ensures v in Strays(managed) + AllLosers(managed, contested) <==>
              && v in managed
              && (IsStray(v) || (Claims(v) && v.machineId in Owners(managed)
                                 && v.resourceId != Owners(managed)[v.machineId].resourceId))
  {
    hide Strays, AllLosers, Claimants;
    StraysCount(managed, v);
    AllLosersCount(managed, contested, v);
    assert v in managed <==> v in multiset(managed);
    assert v in Strays(managed) <==> v in multiset(Strays(managed));
    assert v in AllLosers(managed, contested) <==> v in multiset(AllLosers(managed, contested));
  }

  /* ---- one entry per id ---- */

  /** Surfaced under its own resource id instead of a machine id. */
  ghost predicate Displaced(managed: seq<Vm>, v: Vm) {
    v.zone != "" && (IsStray(v) || (Claims(v) && !IsOwner(managed, v)))
  }

  /** What stands behind the slots: spare owners under their machine ids, displaced VMs under their resource ids. */
  lemma TailIds(t: Tables, offerings: seq<Offering>, managed: seq<Vm>, contested: seq<string>, spare: seq<string>,
      id: string)
    requires DistinctRefs(managed) && Enumerates(contested, Ids(managed))
    requires Enumerates(spare, Slotless(Slots(t, offerings), Owners(managed)))
    ensures Named(Spare(t, offerings, Owners(managed), spare), id) <==>
              NoSlot(Slots(t, offerings), id) && exists v :: IsOwner(managed, v) && v.machineId == id && v.zone != ""
    ensures Named(Orphaned(t, offerings, Strays(managed) + AllLosers(managed, contested)), id) <==>
              exists v :: v in managed && Displaced(managed, v) && v.resourceId == id
  {
    hide Slots, Strays, AllLosers, Claimants, Owners, Ids, Spare, Orphaned, NoSlot;
    var owners := Owners(managed);
    OwnersAre(managed);
    SpareNames(t, offerings, owners, spare, id);
    if id in owners {
      OwnerIsLeast(managed, id, owners[id]);
    }
    forall v | IsOwner(managed, v) && v.machineId == id
      ensures id in owners && owners[id] == v
    {
      OwnerIsLeast(managed, id, v);
    }
    var c := Strays(managed) + AllLosers(managed, contested);
    OrphanedNames(t, offerings, c, id);
    forall v
      ensures v in c && v.zone != "" <==> v in managed && Displaced(managed, v)
    {
      OrphanMembers(managed, contested, v);
      if v in managed {
        OrphansAre(managed, contested, v);
        assert v in c <==> v in multiset(c);
      }
    }
  }

  ghost predicate Named(list: seq<Instance>, id: string) {
    exists e :: e in list && e.id == id
  }

  lemma SpareNames(t: Tables, offerings: seq<Offering>, owners: map<string, Vm>, order: seq<string>, id: string)
    requires forall k :: k in order ==> k in owners
    ensures Named(Spare(t, offerings, owners, order), id) <==> id in order && owners[id].zone != ""
  {
    hide Spare;
    forall e
      ensures e in Spare(t, offerings, owners, order) <==>
                exists k :: k in order && owners[k].zone != "" && e == VmToIdle(t, offerings, k, owners[k])
    {
      SpareMembers(t, offerings, owners, order, e);
    }
    if id in order && owners[id].zone != "" {
      assert VmToIdle(t, offerings, id, owners[id]).id == id;
    }
  }

  lemma OrphanedNames(t: Tables, offerings: seq<Offering>, vms: seq<Vm>, id: string)
    ensures Named(Orphaned(t, offerings, vms), id) <==> exists v :: v in vms && v.zone != "" && v.resourceId == id
  {
    hide Orphaned;
    forall e
      ensures e in Orphaned(t, offerings, vms) <==>
                exists v :: v in vms && v.zone != "" && e == VmToIdle(t, offerings, v.resourceId, v)
    {
      OrphanedMembers(t, offerings, vms, e);
    }
    if v :| v in vms && v.zone != "" && v.resourceId == id {
      assert VmToIdle(t, offerings, v.resourceId, v).id == id;
    }
  }

  /** A slot is listed a second time exactly when a displaced VM has the slot's id for its resource id. */
  lemma SlotListedTwiceExactlyWhen(t: Tables, offerings: seq<Offering>, managed: seq<Vm>, contested: seq<string>,
      spare: seq<string>, out: seq<Instance>, i: nat)
    requires DistinctRefs(managed) && Describes(t, offerings, managed, contested, spare, out)
    requires i < |Slots(t, offerings)| && Kit.DistinctIds(Slots(t, offerings))
    ensures |out| >= |Slots(t, offerings)|
    ensures (exists p :: 0 <= p < |out| && p != i && out[p].id == Slots(t, offerings)[i].id) <==>
              exists v :: v in managed && Displaced(managed, v) && v.resourceId == Slots(t, offerings)[i].id
  {
    hide Slots, SlotEntries, Spare, Orphaned, Strays, AllLosers, Claimants, Owners, Displaced;
    var slots, owners := Slots(t, offerings), Owners(managed);
    var a, b := SlotEntries(t, slots, owners), Spare(t, offerings, owners, spare);
    var c := Orphaned(t, offerings, Strays(managed) + AllLosers(managed, contested));
    var id := slots[i].id;
    TailIds(t, offerings, managed, contested, spare, id);
    forall p | 0 <= p < |slots|
      ensures a[p].id == slots[p].id
    {
      SlotEntryIs(t, slots, owners, p);
    }
    assert out == a + b + c;
    if e :| e in c && e.id == id {
      var p :| 0 <= p < |c| && c[p] == e;
      assert out[|a| + |b| + p] == e;
    }
    forall p | |a| <= p < |a| + |b|
      ensures out[p].id != id
    {
      assert out[p] in b;
    }
    if p :| 0 <= p < |out| && p != i && out[p].id == id {
      assert out[p] in c;
    }
  }

  lemma DistinctInBoth(a: seq<Instance>, b: seq<Instance>)
    ensures Kit.DistinctIds(a + b) <==>
              Kit.DistinctIds(a) && Kit.DistinctIds(b) && forall e :: e in a ==> !Named(b, e.id)
  {
    var all := a + b;
    assert forall p :: 0 <= p < |a| ==> all[p] == a[p];
    assert forall q :: 0 <= q < |b| ==> all[|a| + q] == b[q];
    if Kit.DistinctIds(all) {
      forall e, x | e in a && x in b
        ensures e.id != x.id
      {
        var p :| 0 <= p < |a| && a[p] == e;
        var q :| 0 <= q < |b| && b[q] == x;
        assert all[p].id != all[|a| + q].id;
      }
    }
    if Kit.DistinctIds(a) && Kit.DistinctIds(b) && forall e :: e in a ==> !Named(b, e.id) {
      forall p, q | 0 <= p < |a| && |a| <= q < |all|
        ensures all[p].id != all[q].id
      {
        assert all[p] in a && all[q] in b;
      }
    }
  }

  lemma {:induction false} SpareDistinct(t: Tables, offerings: seq<Offering>, owners: map<string, Vm>,
      order: seq<string>)
    requires (forall id :: id in order ==> id in owners) && forall j, k :: 0 <= j < k < |order| ==> order[j] != order[k]
    ensures Kit.DistinctIds(Spare(t, offerings, owners, order))
  {
    if |order| > 0 {
      hide VmToIdle;
      var init, id := order[..|order| - 1], order[|order| - 1];
      SpareDistinct(t, offerings, owners, init);
      SpareNames(t, offerings, owners, init, id);
      if owners[id].zone != "" {
        SameId(t, offerings, id, owners[id]);
        DistinctInBoth(Spare(t, offerings, owners, init), [VmToIdle(t, offerings, id, owners[id])]);
      }
    }
  }

  lemma SameId(t: Tables, offerings: seq<Offering>, id: string, v: Vm)
    ensures VmToIdle(t, offerings, id, v).id == id
  {
  }

  lemma {:induction false} OrphanedDistinct(t: Tables, offerings: seq<Offering>, vms: seq<Vm>)
    requires DistinctRefs(vms)
    ensures Kit.DistinctIds(Orphaned(t, offerings, vms))
  {
    if |vms| > 0 {
      hide VmToIdle;
      var init, v := vms[..|vms| - 1], vms[|vms| - 1];
      OrphanedDistinct(t, offerings, init);
      OrphanedNames(t, offerings, init, v.resourceId);
      if v.zone != "" {
        SameId(t, offerings, v.resourceId, v);
        DistinctInBoth(Orphaned(t, offerings, init), [VmToIdle(t, offerings, v.resourceId, v)]);
      }
    }
  }

  lemma Repeated(c: seq<Vm>, j: nat, k: nat)
    requires j < k < |c|
    ensures c[j] == c[k] ==> multiset(c)[c[j]] > 1
  {
    assert c == c[..k] + c[k..];
    assert c[j] in c[..k] && c[k] in c[k..];
  }

  lemma OrphansDistinct(managed: seq<Vm>, contested: seq<string>)
    requires DistinctRefs(managed) && Enumerates(contested, Ids(managed))
    ensures DistinctRefs(Strays(managed) + AllLosers(managed, contested))
  {
    hide Strays, AllLosers, Ids, IsOwner;
    var c := Strays(managed) + AllLosers(managed, contested);
    forall j, k | 0 <= j < k < |c|
      ensures c[j].resourceId != c[k].resourceId
    {
      OrphanMembers(managed, contested, c[j]);
      OrphansAre(managed, contested, c[j]);
      Repeated(c, j, k);
      assert c[k] in c;
    }
  }

  /**
    The ids of a whole answer are distinct, as seeding demands, exactly when no displaced VM has for its
    resource id that of a slot or a machine id that a zoned owner carries.
   */
  lemma DistinctExactlyWhen(t: Tables, offerings: seq<Offering>, managed: seq<Vm>, contested: seq<string>,
      spare: seq<string>, out: seq<Instance>)
    requires DistinctRefs(managed) && Describes(t, offerings, managed, contested, spare, out)
    requires Kit.DistinctIds(Slots(t, offerings))
    ensures Kit.DistinctIds(out) <==>
              forall v :: v in managed && Displaced(managed, v) ==>
                && NoSlot(Slots(t, offerings), v.resourceId)
                && forall o :: IsOwner(managed, o) && o.zone != "" ==> o.machineId != v.resourceId
  {
    hide Slots, SlotEntries, Spare, Orphaned, Strays, AllLosers, Claimants, Owners, Displaced, IsOwner, Ids,
      Kit.DistinctIds;
    var slots, owners := Slots(t, offerings), Owners(managed);
    var a, b := SlotEntries(t, slots, owners), Spare(t, offerings, owners, spare);
    var vms := Strays(managed) + AllLosers(managed, contested);
    var c := Orphaned(t, offerings, vms);
    OrphansDistinct(managed, contested);
    SpareDistinct(t, offerings, owners, spare);
    OrphanedDistinct(t, offerings, vms);
    SlotNames(t, slots, owners);
    DistinctInBoth(a, b);
    DistinctInBoth(a + b, c);
    forall id
      ensures Named(b, id) <==>
                NoSlot(slots, id) && exists o :: IsOwner(managed, o) && o.machineId == id && o.zone != ""
      ensures Named(c, id) <==> exists v :: v in managed && Displaced(managed, v) && v.resourceId == id
    {
      TailIds(t, offerings, managed, contested, spare, id);
    }
    NoneInBoth(a, b, c);
    assert Kit.DistinctIds(out) <==> forall id :: Named(c, id) ==> NoSlot(slots, id) && !Named(b, id);
    if Kit.DistinctIds(out) {
      forall v | v in managed && Displaced(managed, v)
        ensures NoSlot(slots, v.resourceId)
        ensures forall o :: IsOwner(managed, o) && o.zone != "" ==> o.machineId != v.resourceId
      {
        assert Named(c, v.resourceId);
      }
    }
  }

  lemma NoneInBoth(a: seq<Instance>, b: seq<Instance>, c: seq<Instance>)
    ensures (forall e :: e in a ==> !Named(b, e.id)) <==> forall id :: Named(a, id) ==> !Named(b, id)
    ensures (forall e :: e in a + b ==> !Named(c, e.id)) <==>
              forall id :: Named(c, id) ==> !Named(a, id) && !Named(b, id)
  {
    assert forall e: Instance :: e in a ==> Named(a, e.id);
    assert forall e: Instance :: e in b ==> Named(b, e.id);
  }

  lemma SlotNames(t: Tables, slots: seq<Instance>, owners: map<string, Vm>)
    ensures forall id :: Named(SlotEntries(t, slots, owners), id) <==> !NoSlot(slots, id)
    ensures Kit.DistinctIds(slots) ==> Kit.DistinctIds(SlotEntries(t, slots, owners))
  {
    hide SlotEntries;
    var a := SlotEntries(t, slots, owners);
    forall p | 0 <= p < |slots|
      ensures a[p].id == slots[p].id && a[p] in a
    {
      SlotEntryIs(t, slots, owners, p);
    }
  }

  /** Such an answer exists: one running untagged VM has a slot's id, and the kit will not seed from the answer. */
  lemma SlotListedTwice(cfg: Kit.Config, t: Tables, size: string, zone: string)
    returns (offerings: seq<Offering>, managed: seq<Vm>, out: seq<Instance>)
    requires zone != ""
    ensures DistinctRefs(managed) && Kit.DistinctIds(Slots(t, offerings))
    ensures Describes(t, offerings, managed, [], [], out)
    ensures |Slots(t, offerings)| == 1 && |out| == 2 && out[0] == Slots(t, offerings)[0] && out[1].id == out[0].id
    ensures !Kit.Seedable(cfg, out)
  {
    hide Slot, Slots, SlotsOf, VmToIdle, Strays, Ids, Owners;
    offerings := [Offering(size, zone, OnDemand, 1, NilAttrs, NilAttrs)];
    var slot := Slot(t, offerings[0], 0);
    OneSlot(t, offerings[0]);
    var v := Vm(slot.id, "", size, zone, false, "", true, false);
    managed := [v];
    OneStray(v);
    SameId(t, offerings, slot.id, v);
    out := [slot, VmToIdle(t, offerings, slot.id, v)];
    assert [slot][..0] == [] && SlotEntries(t, [], map[]) == [];
    assert SlotEntries(t, [slot], map[]) == [slot];
    assert [v][..0] == [] && Orphaned(t, offerings, []) == [];
    assert Orphaned(t, offerings, [v]) == [VmToIdle(t, offerings, slot.id, v)];
    assert Strays(managed) + AllLosers(managed, []) == [v];
    assert Describes(t, offerings, managed, [], [], out);
  }

  lemma OneSlot(t: Tables, off: Offering)
    requires off.count == 1
    ensures Slots(t, [off]) == [Slot(t, off, 0)]
  {
    hide Slot;
    assert [off][..0] == [] && Slots(t, []) == [];
    assert SlotsOf(t, off, 0) == [] && SlotsOf(t, off, 1) == [Slot(t, off, 0)];
  }

  lemma OneStray(v: Vm)
    requires IsStray(v)
    ensures Strays([v]) == [v] && Ids([v]) == {} && Owners([v]) == map[]
  {
    hide Claimants, Least;
    assert [v][..0] == [];
  }
}
