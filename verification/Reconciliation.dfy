/** What one Reconcile may and may not do to the inventory. */
module Reconciliation {
  import opened Machines
  import opened Kit

  /** The last valid entry a listing holds for an id. */
  function Entry(cfg: Config, list: seq<Instance>, id: string): Option<Instance> {
    if |list| == 0 then None
    else
      var last := list[|list| - 1];
      if last.id == id && last.Valid(cfg.requireZone) then Some(last) else Entry(cfg, list[..|list| - 1], id)
  }

  lemma {:induction false} EntryIsMember(cfg: Config, list: seq<Instance>, id: string, e: Instance)
    requires DistinctIds(list)
    ensures Entry(cfg, list, id) == Some(e) <==> e in list && e.id == id && e.Valid(cfg.requireZone)
  {
    if |list| > 0 {
      var init, last := list[..|list| - 1], list[|list| - 1];
      assert list == init + [last];
      EntryIsMember(cfg, init, id, e);
    }
  }

  lemma {:induction false} NoEntry(cfg: Config, list: seq<Instance>, id: string)
    requires forall i :: 0 <= i < |list| ==> list[i].id != id
    ensures Entry(cfg, list, id) == None
  {
    if |list| > 0 {
      NoEntry(cfg, list[..|list| - 1], id);
    }
  }

  /** With distinct ids the merge acts on every id separately. */
  lemma {:induction false} Pointwise(cfg: Config, m: Mem, list: seq<Instance>, id: string)
    requires DistinctIds(list)
    ensures var after := Reconcile(cfg, m, list).d.machines;
            match Entry(cfg, list, id)
            case None => if id in m.d.machines then id in after && after[id] == m.d.machines[id] else id !in after
            case Some(e) =>
              && id in after
              && after[id] == (if id in m.d.machines then Refresh(m.d.machines[id], e) else e.ToMachine())
  {
    if |list| > 0 {
      var init, last := list[..|list| - 1], list[|list| - 1];
      Pointwise(cfg, m, init, id);
      if last.id == id {
        assert forall i :: 0 <= i < |init| ==> init[i] == list[i] && list[i].id != list[|list| - 1].id;
        NoEntry(cfg, init, id);
      }
    }
  }

  /** The kit-owned overlay of a record: what a substrate listing must never touch. */
  predicate SameOverlay(a: Machine, b: Machine) {
    && SameIdentity(a, b)
    && a.state == b.state && a.host == b.host
    && a.cluster == b.cluster && a.metadata == b.metadata && a.lastError == b.lastError
  }

  /** Any listing at all: no machine is dropped, no overlay, fence or op changes. */
  lemma {:induction false} KeepsOverlay(cfg: Config, m: Mem, list: seq<Instance>)
    ensures var after := Reconcile(cfg, m, list).d;
            && after.fences == m.d.fences && after.ops == m.d.ops && after.nextOp == m.d.nextOp
            && after.rev >= m.d.rev
            && (after.rev == m.d.rev ==> Reconcile(cfg, m, list) == m)
            && forall id :: id in m.d.machines ==>
                 id in after.machines && SameOverlay(after.machines[id], m.d.machines[id])
  {
    if |list| > 0 {
      KeepsOverlay(cfg, m, list[..|list| - 1]);
    }
  }

  /** The inventory a Reconcile leaves does not depend on the order of the listing. */
  lemma OrderFree(cfg: Config, m: Mem, list: seq<Instance>, other: seq<Instance>)
    requires DistinctIds(list) && DistinctIds(other)
    requires forall e :: e in list <==> e in other
    ensures Reconcile(cfg, m, list).d.machines == Reconcile(cfg, m, other).d.machines
  {
    forall id
      ensures Entry(cfg, list, id) == Entry(cfg, other, id)
    {
      if Entry(cfg, list, id).Some? {
        EntryIsMember(cfg, list, id, Entry(cfg, list, id).value);
        EntryIsMember(cfg, other, id, Entry(cfg, list, id).value);
      } else if Entry(cfg, other, id).Some? {
        EntryIsMember(cfg, list, id, Entry(cfg, other, id).value);
        EntryIsMember(cfg, other, id, Entry(cfg, other, id).value);
      }
    }
    forall id
      ensures var a, b := Reconcile(cfg, m, list).d.machines, Reconcile(cfg, m, other).d.machines;
              (id in a <==> id in b) && (id in a ==> a[id] == b[id])
    {
      Pointwise(cfg, m, list, id);
      Pointwise(cfg, m, other, id);
    }
  }

  lemma RefreshSettles(cur: Machine, e: Instance)
    requires !e.price.NaN? && !e.interruption.NaN?
    ensures !Changes(Refresh(cur, e), e)
  {
  }

  /** Reconciling twice with one listing is reconciling once: the second bumps no revision. */
  lemma RepeatIsNoOp(cfg: Config, m: Mem, list: seq<Instance>)
    requires DistinctIds(list)
    ensures Reconcile(cfg, Reconcile(cfg, m, list), list) == Reconcile(cfg, m, list)
  {
    var once := Reconcile(cfg, m, list);
    forall e | e in list && e.Valid(cfg.requireZone)
      ensures e.id in once.d.machines && !Changes(once.d.machines[e.id], e)
    {
      EntryIsMember(cfg, list, e.id, e);
      Pointwise(cfg, m, list, e.id);
      if e.id in m.d.machines {
        RefreshSettles(m.d.machines[e.id], e);
      }
    }
    NothingToDo(cfg, once, list);
  }

  lemma {:induction false} NothingToDo(cfg: Config, m: Mem, list: seq<Instance>)
    requires forall e :: e in list && e.Valid(cfg.requireZone) ==>
              e.id in m.d.machines && !Changes(m.d.machines[e.id], e)
    ensures Reconcile(cfg, m, list) == m
  {
    if |list| > 0 {
      NothingToDo(cfg, m, list[..|list| - 1]);
    }
  }

  predicate NoEmptyValues(a: Attrs) {
    "" !in a.Content().Values
  }

  /**
    mapsEqual decides equality against every other map exactly when the record's own map
    holds no empty value: an empty value is confused with an absent key.
   */
  lemma MapsEqualExact(a: Attrs)
    ensures NoEmptyValues(a) <==> forall b :: MapsEqual(a, b) ==> a.Content() == b.Content()
  {
    var x := a.Content();
    if NoEmptyValues(a) {
      forall b | MapsEqual(a, b)
        ensures x == b.Content()
      {
        var y := b.Content();
        assert forall k :: k in x ==> x[k] in x.Values;
        assert x.Keys <= y.Keys;
        SameSizeSubset(x.Keys, y.Keys);
      }
    } else {
      var k :| k in x && x[k] == "";
      var unused := Longer(x.Keys);
      var y := (x - {k})[unused := "x"];
      assert (x - {k}).Keys == x.Keys - {k};
      assert y.Keys == x.Keys - {k} + {unused};
      assert |y.Keys| == |x.Keys|;
      assert MapsEqual(a, Attrs(y));
      assert unused in Attrs(y).Content();
    }
  }

  lemma {:induction false} SameSizeSubset<T>(a: set<T>, b: set<T>)
    requires a <= b && |a| == |b|
    ensures a == b
  {
    assert |b - a| == |b| - |a|;
    assert b == a + (b - a);
  }

  /** A string longer than every member of a finite set. */
  ghost function Longer(s: set<string>): (r: string)
    ensures forall t :: t in s ==> |t| < |r|
  {
    if s == {} then "x"
    else
      var t :| t in s;
      var r := Longer(s - {t});
      assert s == (s - {t}) + {t};
      r + t
  }

  /**
    A tracked machine ends up with exactly the facts a valid entry reports, provided the maps
    the kit held for it had no empty values; price and probability agree unconditionally.
   */
  lemma FactsAgree(cfg: Config, m: Mem, list: seq<Instance>, e: Instance)
    requires DistinctIds(list) && e in list && e.Valid(cfg.requireZone)
    ensures e.id in Reconcile(cfg, m, list).d.machines
    ensures var rec := Reconcile(cfg, m, list).d.machines[e.id];
            && rec.price == e.price && rec.interruption == e.interruption
            && (e.id in m.d.machines ==>
                  var cur := m.d.machines[e.id];
                  && (NoEmptyValues(cur.resources) ==> rec.resources.Content() == e.resources.Content())
                  && (NoEmptyValues(cur.allocatable) ==> rec.allocatable.Content() == e.allocatable.Content())
                  && (NoEmptyValues(cur.labels) ==> rec.labels.Content() == e.labels.Content()))
  {
    EntryIsMember(cfg, list, e.id, e);
    Pointwise(cfg, m, list, e.id);
    if e.id in m.d.machines {
      var cur := m.d.machines[e.id];
      MapsEqualExact(cur.resources);
      MapsEqualExact(cur.allocatable);
      MapsEqualExact(cur.labels);
    }
  }

  /** The cost-input rule a SPOT record owes its readers. */
  predicate SpotPriced(m: Machine) {
    m.capacity == Spot ==> m.interruption != Fin(0.0)
  }

  /**
    capacity_type is not refreshed but interruption_probability is, so a refresh breaks the SPOT
    rule exactly when a SPOT record meets a listing that reports another capacity type with
    probability 0.
   */
  lemma SpotRuleSurvives(cur: Machine, e: Instance, requireZone: bool)
    requires e.Valid(requireZone)
    ensures SpotPriced(Refresh(cur, e)) <==> !(cur.capacity == Spot && e.capacity != Spot && e.interruption == Fin(0.0))
  {
  }

  lemma ReconcileAlone(cfg: Config, m: Mem, ins: Instance)
    ensures Reconcile(cfg, m, [ins]) == ReconcileOne(cfg, m, ins)
  {
    assert [ins][..0] == [] && Reconcile(cfg, m, []) == m;
  }

  /** It happens: an instance listed as SPOT at first, and as ON_DEMAND with probability 0 the next time. */
  lemma SpotRuleBroken(cfg: Config) returns (first: Instance, second: Instance)
    ensures first.Valid(cfg.requireZone) && second.Valid(cfg.requireZone) && second.id == first.id
    ensures var m := Reconcile(cfg, Loaded(NO_RECORDS), [first]);
            var after := Reconcile(cfg, m, [second]);
            && first.id in m.d.machines && SpotPriced(m.d.machines[first.id])
            && first.id in after.d.machines && !SpotPriced(after.d.machines[first.id])
  {
    first := Instance("m", NO_HOST, Speculative, "t", "z", Spot, Fin(1.0), Fin(0.5), NilAttrs, NilAttrs, NilAttrs);
    second := first.(capacity := OnDemand, interruption := Fin(0.0));
    ReconcileAlone(cfg, Loaded(NO_RECORDS), first);
    ReconcileAlone(cfg, Reconcile(cfg, Loaded(NO_RECORDS), [first]), second);
  }
}
