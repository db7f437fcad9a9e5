/** azure/backend.go: what the entries of a Describe answer say, field by field, and which slots there are. */
module AzureEntries {
  import opened Machines
  import opened CapacityTags
  import opened AzureInventory
  import SlotIdentity
  import Kit

  /* ---- the order among claimants ---- */

  /** Go's string order: at the first difference the smaller code wins, and a proper prefix comes first. */
  lemma {:induction false} BeforeIsLexicographic(a: string, b: string)
    ensures Before(a, b) <==> exists k :: Precedes(a, b, k)
  {
    if |a| > 0 && |b| > 0 && a[0] == b[0] {
      var c, d := a[1..], b[1..];
      BeforeIsLexicographic(c, d);
      if k :| Precedes(c, d, k) {
        assert forall j :: 0 < j < k + 1 ==> a[j] == c[j - 1] && b[j] == d[j - 1];
        assert Precedes(a, b, k + 1);
      }
      if k :| Precedes(a, b, k) {
        assert forall j :: 0 <= j < k - 1 ==> c[j] == a[j + 1] && d[j] == b[j + 1];
        assert Precedes(c, d, k - 1);
      }
    } else if Before(a, b) {
      assert Precedes(a, b, 0);
    }
  }

  /** The strings agree up to k, and there a ends first or has the smaller code. */
  predicate Precedes(a: string, b: string, k: int) {
    && 0 <= k <= |a| && k < |b| && (forall j :: 0 <= j < k ==> a[j] == b[j])
    && (k == |a| || a[k] < b[k])
  }

  /* ---- slots ---- */

  /** A slot of the offering, with the given index in its id and the offering's own facts. */
  predicate SlotOf(t: Tables, off: Offering, i: nat, s: Instance) {
    && s.id == SlotIdentity.SlotId(t.provider, off.capacity, off.size, off.zone, i)
    && s.state == Speculative && s.host.provider == "" && s.host.ref == ""
    && s.instanceType == off.size && s.zone == off.zone && s.capacity == off.capacity
    && s.price == t.price(off.size, off.capacity) && s.interruption == t.interruption(s.id, off.size, off.capacity)
    && s.resources == off.resources && s.allocatable == t.allocatable(off.size) && s.labels == off.labels
  }

  /** An offering of count n has n slots, with the indices 0 to n - 1 in this order. */
  lemma {:induction false} SlotsOfExactly(t: Tables, off: Offering, n: nat)
    ensures |SlotsOf(t, off, n)| == n && forall i :: 0 <= i < n ==> SlotOf(t, off, i, SlotsOf(t, off, n)[i])
  {
    if n > 0 {
      SlotsOfExactly(t, off, n - 1);
      hide SlotIdentity.SlotId;
      assert SlotOf(t, off, n - 1, Slot(t, off, n - 1));
    }
  }

  function Places(offerings: seq<Offering>): nat {
    if |offerings| == 0 then 0
    else
      var count := offerings[|offerings| - 1].count;
      Places(offerings[..|offerings| - 1]) + if count > 0 then count else 0
  }

  /** There are as many slots as counted, and only those of an offering with an index below its count. */
  lemma {:induction false} SlotsExactly(t: Tables, offerings: seq<Offering>)
    ensures |Slots(t, offerings)| == Places(offerings)
    ensures forall s :: s in Slots(t, offerings) ==> exists off, i :: Offers(t, offerings, off, i, s)
  {
    hide SlotOf;
    if |offerings| > 0 {
      var init, off := offerings[..|offerings| - 1], offerings[|offerings| - 1];
      assert offerings == init + [off];
      SlotsExactly(t, init);
      var n := if off.count > 0 then off.count else 0;
      SlotsOfExactly(t, off, n);
      var more := SlotsOf(t, off, n);
      forall s | s in Slots(t, offerings)
        ensures exists o, i :: Offers(t, offerings, o, i, s)
      {
        if s in more {
          var i :| 0 <= i < n && more[i] == s;
          assert Offers(t, offerings, off, i, s);
        } else {
          var o, i :| Offers(t, init, o, i, s);
          assert Offers(t, offerings, o, i, s);
        }
      }
    }
  }

  predicate Offers(t: Tables, offerings: seq<Offering>, off: Offering, i: int, s: Instance) {
    off in offerings && 0 <= i < off.count && SlotOf(t, off, i, s)
  }

  /** And every one of those is there. */
  lemma {:induction false} SlotIsThere(t: Tables, offerings: seq<Offering>, off: Offering, i: nat) returns (s: Instance)
    requires off in offerings && i < off.count
    ensures s in Slots(t, offerings) && SlotOf(t, off, i, s)
  {
    hide SlotOf;
    var init, last := offerings[..|offerings| - 1], offerings[|offerings| - 1];
    assert offerings == init + [last];
    if off in init {
      s := SlotIsThere(t, init, off, i);
    } else {
      SlotsOfExactly(t, last, last.count);
      s := SlotsOf(t, last, last.count)[i];
    }
  }

  predicate SameKey(a: Offering, b: Offering) {
    a.capacity == b.capacity && a.size == b.size && a.zone == b.zone
  }

  predicate Slashless(offerings: seq<Offering>) {
    forall off :: off in offerings ==> SlotIdentity.NoSlash(off.size) && SlotIdentity.NoSlash(off.zone)
  }

  /** No two offerings with slots are for the same capacity, size and zone. */
  predicate KeysDiffer(offerings: seq<Offering>) {
    forall j, k :: 0 <= j < k < |offerings| && offerings[j].count > 0 && offerings[k].count > 0 ==>
      !SameKey(offerings[j], offerings[k])
  }

  /** Slot ids are distinct exactly when no two offerings with slots share capacity, size and zone. */
  lemma {:induction false} SlotsDistinctExactlyWhen(t: Tables, offerings: seq<Offering>)
    requires Slashless(offerings)
    ensures Kit.DistinctIds(Slots(t, offerings)) <==> KeysDiffer(offerings)
  {
    hide KeysDiffer, NoneLike, SlotsOf, Kit.DistinctIds;
    if |offerings| > 0 {
      var init, off := offerings[..|offerings| - 1], offerings[|offerings| - 1];
      assert offerings == init + [off];
      SlotsDistinctExactlyWhen(t, init);
      var n := if off.count > 0 then off.count else 0;
      SlotsOfDistinct(t, off, n);
      DistinctInBoth(Slots(t, init), SlotsOf(t, off, n));
      SharedSlot(t, init, off, n);
      OneKeyMore(init, off);
    } else {
      NoKeys(t);
    }
  }

  lemma NoKeys(t: Tables)
    ensures KeysDiffer([]) && Kit.DistinctIds(Slots(t, []))
  {
  }

  lemma OneKeyMore(init: seq<Offering>, off: Offering)
    ensures KeysDiffer(init + [off]) <==> KeysDiffer(init) && (off.count > 0 ==> NoneLike(init, off))
  {
    hide SameKey;
    var all := init + [off];
    assert all[|init|] == off && forall j :: 0 <= j < |init| ==> all[j] == init[j];
  }

  predicate NoneLike(offerings: seq<Offering>, off: Offering) {
    forall j :: 0 <= j < |offerings| && offerings[j].count > 0 ==> !SameKey(offerings[j], off)
  }

  lemma SlotsOfDistinct(t: Tables, off: Offering, n: nat)
    requires SlotIdentity.NoSlash(off.size) && SlotIdentity.NoSlash(off.zone)
    ensures Kit.DistinctIds(SlotsOf(t, off, n))
  {
    hide SlotIdentity.SlotId;
    SlotsOfExactly(t, off, n);
    forall i, j | 0 <= i < j < n
      ensures SlotsOf(t, off, n)[i].id != SlotsOf(t, off, n)[j].id
    {
      SameSlot(t, off, off, i, j);
    }
  }

  lemma SameSlot(t: Tables, a: Offering, b: Offering, i: nat, j: nat)
    requires SlotIdentity.NoSlash(a.size) && SlotIdentity.NoSlash(a.zone)
    requires SlotIdentity.NoSlash(b.size) && SlotIdentity.NoSlash(b.zone)
    ensures var p, q := SlotIdentity.SlotId(t.provider, a.capacity, a.size, a.zone, i),
                        SlotIdentity.SlotId(t.provider, b.capacity, b.size, b.zone, j);
            p == q <==> SameKey(a, b) && i == j
  {
    hide SlotIdentity.SlotId;
    if SlotIdentity.SlotId(t.provider, a.capacity, a.size, a.zone, i)
       == SlotIdentity.SlotId(t.provider, b.capacity, b.size, b.zone, j) {
      SlotIdentity.SlotIdInjective(t.provider, a.capacity, a.size, a.zone, i,
                                   t.provider, b.capacity, b.size, b.zone, j);
    }
  }

  lemma SharedSlot(t: Tables, init: seq<Offering>, off: Offering, n: nat)
    requires Slashless(init) && SlotIdentity.NoSlash(off.size) && SlotIdentity.NoSlash(off.zone)
    ensures (forall e :: e in Slots(t, init) ==> !Named(SlotsOf(t, off, n), e.id)) <==> (n > 0 ==> NoneLike(init, off))
  {
    hide SlotIdentity.SlotId, SameKey, Slots, SlotsOf;
    SlotsExactly(t, init);
    SlotsOfExactly(t, off, n);
    var more := SlotsOf(t, off, n);
    if n > 0 && !NoneLike(init, off) {
      var k :| 0 <= k < |init| && init[k].count > 0 && SameKey(init[k], off);
      assert init[k] in init;
      var s := SlotIsThere(t, init, init[k], 0);
      SameSlot(t, init[k], off, 0, 0);
      assert more[0] in more && SlotOf(t, off, 0, more[0]);
      assert Named(more, s.id);
    }
    if e: Instance, x: Instance :| e in Slots(t, init) && x in more && x.id == e.id {
      var o, i :| Offers(t, init, o, i, e);
      var j :| 0 <= j < n && more[j] == x;
      assert SlotOf(t, off, j, x);
      SameSlot(t, o, off, i, j);
    }
  }

  /* ---- VMs that fill no slot ---- */

  /** The entry of a VM listed under the given id: its own size, zone and market, and what the tables say of them. */
  predicate EntryOf(t: Tables, offerings: seq<Offering>, v: Vm, e: Instance) {
    && e.state == Idle && e.host.provider == t.provider && e.host.ref == v.resourceId
    && e.instanceType == v.size && e.zone == v.zone
    && (if v.capacity in {"spot", "reserved", "bare_metal", "on_demand"} then CapacityString(e.capacity) == v.capacity
        else if v.spot then e.capacity == Spot else e.capacity == OnDemand)
    && e.price == t.price(v.size, e.capacity) && e.interruption == t.interruption(e.id, v.size, e.capacity)
    && e.resources == ResourcesFor(offerings, v.size, v.zone) && e.allocatable == t.allocatable(v.size)
    && e.labels == NilAttrs
  }

  /**
    Behind the slots every entry is that of a zoned VM: of an owner under its machine id, or of one
    that strayed or lost its machine under its resource id.
   */
  lemma EntriesCarryTheirFacts(t: Tables, offerings: seq<Offering>, managed: seq<Vm>, contested: seq<string>,
      spare: seq<string>, out: seq<Instance>, p: nat)
    requires DistinctRefs(managed) && Describes(t, offerings, managed, contested, spare, out)
    requires |Slots(t, offerings)| <= p < |out|
    ensures exists v :: v in managed && v.zone != "" && EntryOf(t, offerings, v, out[p])
              && (IsOwner(managed, v) ==> out[p].id == v.machineId)
              && (!IsOwner(managed, v) ==> out[p].id == v.resourceId)
  {
    hide Slots, SlotEntries, Spare, Orphaned, Strays, AllLosers, Claimants, Owners, IsOwner, VmToIdle, Ids, EntryOf;
    var slots, owners := Slots(t, offerings), Owners(managed);
    var a, b := SlotEntries(t, slots, owners), Spare(t, offerings, owners, spare);
    var vms := Strays(managed) + AllLosers(managed, contested);
    var e := out[p];
    SpareMembers(t, offerings, owners, spare, e);
    OrphanedMembers(t, offerings, vms, e);
    if p < |a| + |b| {
      assert e == b[p - |a|] && e in b;
      var id :| id in spare && owners[id].zone != "" && e == VmToIdle(t, offerings, id, owners[id]);
      OwnerIsLeast(managed, id, owners[id]);
      OwnerIsThere(managed, owners[id]);
      EntryIs(t, offerings, id, owners[id]);
    } else {
      assert e in Orphaned(t, offerings, vms);
      var v :| v in vms && v.zone != "" && e == VmToIdle(t, offerings, v.resourceId, v);
      OrphanMembers(managed, contested, v);
      OrphansAre(managed, contested, v);
      StrayIsNoOwner(managed, v);
      assert v in multiset(vms);
      EntryIs(t, offerings, v.resourceId, v);
    }
  }

  lemma OwnerIsThere(managed: seq<Vm>, v: Vm)
    requires IsOwner(managed, v)
    ensures v in managed
  {
  }

  lemma StrayIsNoOwner(managed: seq<Vm>, v: Vm)
    ensures IsStray(v) ==> !IsOwner(managed, v)
  {
  }

  lemma EntryIs(t: Tables, offerings: seq<Offering>, id: string, v: Vm)
    ensures EntryOf(t, offerings, v, VmToIdle(t, offerings, id, v)) && VmToIdle(t, offerings, id, v).id == id
  {
  }

  /* ---- which resources ---- */

  /** The first offering of the size in the zone decides; without one, the first of the size that has resources. */
  lemma FirstDecides(offerings: seq<Offering>, size: string, zone: string)
    ensures forall k :: FirstExact(offerings, size, zone, k) ==>
              ResourcesFor(offerings, size, zone) == offerings[k].resources
    ensures (forall off :: off in offerings ==> off.size != size || off.zone != zone) ==>
              forall k :: FirstStocked(offerings, size, k) ==>
                ResourcesFor(offerings, size, zone) == offerings[k].resources
  {
    forall k | FirstExact(offerings, size, zone, k)
      ensures ResourcesFor(offerings, size, zone) == offerings[k].resources
    {
      ExactIs(offerings, size, zone, k);
    }
    if forall off :: off in offerings ==> off.size != size || off.zone != zone {
      NoExact(offerings, size, zone);
      forall k | FirstStocked(offerings, size, k)
        ensures Fallback(offerings, size) == offerings[k].resources
      {
        FallbackIsFirst(offerings, size, k);
      }
    }
  }

  predicate FirstExact(offerings: seq<Offering>, size: string, zone: string, k: int) {
    && 0 <= k < |offerings| && offerings[k].size == size && offerings[k].zone == zone
    && forall j :: 0 <= j < k ==> offerings[j].size != size || offerings[j].zone != zone
  }

  predicate FirstStocked(offerings: seq<Offering>, size: string, k: int) {
    && 0 <= k < |offerings| && offerings[k].size == size && offerings[k].resources != NilAttrs
    && forall j :: 0 <= j < k && offerings[j].size == size ==> offerings[j].resources == NilAttrs
  }

  lemma {:induction false} FallbackIsFirst(offerings: seq<Offering>, size: string, k: nat)
    requires FirstStocked(offerings, size, k)
    ensures Fallback(offerings, size) == offerings[k].resources
  {
    var init := offerings[..|offerings| - 1];
    if k < |init| {
      FallbackIsFirst(init, size, k);
    } else {
      FallbackMember(init, size);
    }
  }
}
