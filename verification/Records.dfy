/**
  The kit's promises about single records and replies, field by field: what a backend's answer, an
  accepted request, an interruption and an import leave in a record, and which reply a request gets.
 */
module Records {
  import opened Machines
  import opened Kit
  import opened Reconciliation

  /* ---- records ---- */

  predicate OnlyState(before: Machine, after: Machine) {
    after.(state := before.state) == before
  }

  predicate OnlyFailure(before: Machine, after: Machine, message: string) {
    && after.state == Failed && after.lastError == message
    && after.(state := before.state, lastError := before.lastError) == before
  }

  /** What a completed operation leaves in the record that waited for it. */
  predicate SettledAs(before: Machine, after: Machine, k: Kind, res: BackendResult) {
    match res
    case Err(message) => OnlyFailure(before, after, message)
    case Ok(host, resources, allocatable) =>
      match k
      case Create =>
        if host.provider == "" && host.ref == ""
        then OnlyFailure(before, after, "CreateInstance returned no host for a created machine")
        else
          && after.state == Idle && after.host == host
          && after.resources == (if resources == NilAttrs then before.resources else resources)
          && after.allocatable == (if allocatable == NilAttrs then before.allocatable else allocatable)
          && after.(state := before.state, host := before.host, resources := before.resources,
                    allocatable := before.allocatable) == before
      case Configure => after.state == Configured && OnlyState(before, after)
      case Drain =>
        && after.state == Idle && after.cluster == "" && after.metadata == NilAttrs
        && after.(state := before.state, cluster := before.cluster, metadata := before.metadata) == before
      case Delete =>
        && after.state == Speculative && after.host.provider == "" && after.host.ref == ""
        && after.(state := before.state, host := before.host) == before
  }

  /** An operation is accepted in the one state it may start from; Configure binds, nothing else changes. */
  predicate AcceptedAs(before: Machine, after: Machine, r: Request) {
    match r.kind
    case Create => before.state == Speculative && after.state == Creating && OnlyState(before, after)
    case Configure =>
      && before.state == Idle && after.state == Configuring
      && after.cluster == r.cluster && after.metadata == r.metadata
      && after.(state := before.state, cluster := before.cluster, metadata := before.metadata) == before
    case Drain => before.state == Configured && after.state == Draining && OnlyState(before, after)
    case Delete => before.state == Idle && after.state == Deleting && OnlyState(before, after)
  }

  /** A restart fails a machine in flight and says which operation it interrupted. */
  predicate InterruptedAs(before: Machine, after: Machine) {
    match before.state
    case Creating => OnlyFailure(before, after, "create" + INTERRUPTION)
    case Configuring => OnlyFailure(before, after, "configure" + INTERRUPTION)
    case Draining => OnlyFailure(before, after, "drain" + INTERRUPTION)
    case Deleting => OnlyFailure(before, after, "delete" + INTERRUPTION)
    case _ => after == before
  }

  const INTERRUPTION := " transition interrupted by a provider restart; needs re-drive"

  /** A machine taken over from a listing: every fact as listed, no binding, no error. */
  predicate ImportedAs(after: Machine, e: Instance) {
    && after.id == e.id && after.host == e.host
    && after.instanceType == e.instanceType && after.zone == e.zone && after.capacity == e.capacity
    && after.price == e.price && after.interruption == e.interruption
    && after.resources == e.resources && after.allocatable == e.allocatable && after.labels == e.labels
    && after.cluster == "" && after.metadata == NilAttrs && after.lastError == ""
    && after.state == (if e.host.provider == "" && e.host.ref == "" then Speculative else Idle)
  }

  /** A listing may change five facts of a tracked machine, and nothing else. */
  predicate OnlyFacts(before: Machine, after: Machine) {
    after.(price := before.price, interruption := before.interruption, resources := before.resources,
           allocatable := before.allocatable, labels := before.labels) == before
  }

  lemma SettledExactly(m: Mem, t: Task, res: BackendResult)
    requires Complete(m, t, res).persist
    ensures var id, after := t.machine.id, Complete(m, t, res).mem.d;
            && id in m.d.machines && id in after.machines
            && SettledAs(m.d.machines[id], after.machines[id], t.kind, res)
            && after == m.d.(machines := m.d.machines[id := after.machines[id]], rev := m.d.rev + 1)
  {
  }

  lemma AcceptedExactly(cfg: Config, m: Mem, r: Request)
    requires Dispatch(cfg, m, r).launched.Some?
    ensures var s := Dispatch(cfg, m, r);
            var op, after := s.launched.value.op, s.mem.d;
            && r.id in m.d.machines && r.id in after.machines
            && AcceptedAs(m.d.machines[r.id], after.machines[r.id], r)
            && s.launched.value.kind == r.kind && s.launched.value.machine == after.machines[r.id]
            && op.prefix == cfg.prefix && op.n == m.d.nextOp + 1
            && after.machines == m.d.machines[r.id := after.machines[r.id]]
            && after.ops == m.d.ops[OpKey(r.id, r.kind) := op] && after.nextOp == op.n && after.rev == m.d.rev + 1
  {
  }

  lemma InterruptedExactly(d: Durable, id: string)
    requires id in d.machines
    ensures id in Recover(d).machines && InterruptedAs(d.machines[id], Recover(d).machines[id])
  {
  }

  /** An untracked id becomes the machine the listing describes, a tracked one keeps all but its five facts. */
  lemma ImportedExactly(cfg: Config, m: Mem, list: seq<Instance>, id: string)
    requires DistinctIds(list)
    ensures var after := Reconcile(cfg, m, list).d.machines;
            if id in m.d.machines then id in after && OnlyFacts(m.d.machines[id], after[id])
            else id in after <==> exists e :: e in list && e.Valid(cfg.requireZone) && e.id == id
    ensures forall e :: e in list && e.Valid(cfg.requireZone) && e.id == id && id !in m.d.machines ==>
              ImportedAs(Reconcile(cfg, m, list).d.machines[id], e)
  {
    Pointwise(cfg, m, list, id);
    forall e
      ensures Entry(cfg, list, id) == Some(e) <==> e in list && e.id == id && e.Valid(cfg.requireZone)
    {
      EntryIsMember(cfg, list, id, e);
    }
  }

  /** The kit accepts a listed machine exactly if it is complete: the requirements one by one. */
  lemma ValidExactlyWhen(e: Instance, requireZone: bool)
    ensures e.Valid(requireZone) <==>
              && |e.id| > 0 && |e.instanceType| > 0 && (requireZone ==> |e.zone| > 0)
              && e.capacity in {BareMetal, Reserved, OnDemand, Spot}
              && (e.price == PosInf || (e.price.Fin? && e.price.r >= 0.0))
              && e.interruption.Fin? && 0.0 <= e.interruption.r <= 1.0
              && (e.capacity == Spot ==> e.interruption.r > 0.0)
              && (if e.host == NO_HOST then e.state in {Unspecified, Speculative} else e.state in {Unspecified, Idle})
  {
  }

  /* ---- replies ---- */

  /** The token is not entirely unset, and a mark for its shard and machine is at least as new. */
  predicate Behind(fences: map<FenceKey, FenceMark>, r: Request) {
    var f, key := r.token, FenceKey(r.token.shard, r.id);
    && !(f.shard == "" && f.epoch == 0 && f.sequence == 0)
    && key in fences
    && (f.epoch < fences[key].epoch || (f.epoch == fences[key].epoch && f.sequence <= fences[key].sequence))
  }

  /** At the operation's target, or on the way there. */
  predicate AtTarget(k: Kind, s: State) {
    match k
    case Create => s == Creating || s == Idle
    case Configure => s == Configuring || s == Configured
    case Drain => s == Draining || s == Idle
    case Delete => s == Deleting || s == Speculative
  }

  /** In the operation's one starting position. */
  predicate AtStart(k: Kind, s: State) {
    match k
    case Create => s == Speculative
    case Configure => s == Idle
    case Drain => s == Configured
    case Delete => s == Idle
  }

  /** Every reply has its one cause, the earlier check deciding before the later. */
  lemma RepliesExactly(cfg: Config, m: Mem, r: Request)
    ensures var reply := Dispatch(cfg, m, r).reply;
            && reply.Some?
            && (reply.value == InvalidArgument <==> r.id == "")
            && (reply.value == Unimplemented <==> r.id != "" && r.kind == Delete && !cfg.canDelete)
    ensures var reply := Dispatch(cfg, m, r).reply.value;
            var served := r.id != "" && (r.kind != Delete || cfg.canDelete);
            && (reply.Fenced? <==> served && Behind(m.d.fences, r))
            && (reply.Fenced? ==> reply.mark == m.d.fences[FenceKey(r.token.shard, r.id)])
    ensures var reply := Dispatch(cfg, m, r).reply.value;
            var heard := r.id != "" && (r.kind != Delete || cfg.canDelete) && !Behind(m.d.fences, r);
            && (reply == NotFound <==> heard && r.id !in m.d.machines)
            && (heard && r.id in m.d.machines ==>
                  var s, retry := m.d.machines[r.id].state, OpKey(r.id, r.kind) in m.d.ops;
                  if retry && AtTarget(r.kind, s) then
                    reply == Ack(m.d.ops[OpKey(r.id, r.kind)], m.d.machines[r.id])
                  else if AtStart(r.kind, s) then
                    && reply.Ack? && reply.op == OpId(cfg.prefix, m.d.nextOp + 1)
                    && AcceptedAs(m.d.machines[r.id], reply.machine, r)
                  else reply == InvalidTransition(s))
  {
    hide Accepted;
    if Dispatch(cfg, m, r).launched.Some? {
      AcceptedExactly(cfg, m, r);
    }
  }

  /** The marks after a request: its own is raised to exactly its token if it was heard and had one. */
  lemma MarksExactly(cfg: Config, m: Mem, r: Request)
    ensures var after, f := Dispatch(cfg, m, r).mem.d.fences, r.token;
            if r.id == "" || (r.kind == Delete && !cfg.canDelete) || Behind(m.d.fences, r)
               || (f.shard == "" && f.epoch == 0 && f.sequence == 0)
            then after == m.d.fences
            else after == m.d.fences[FenceKey(f.shard, r.id) := FenceMark(f.epoch, f.sequence)]
  {
  }

  /* ---- filtered lists ---- */

  /** A list filtered by states is the unfiltered one restricted to machines in those states. */
  lemma FilterRestricts(m: Mem, since: Option<int>, states: seq<State>, full: seq<Machine>, out: seq<Machine>)
    requires states != [] && Answers(full, Matching(m, since, []), 0) && Answers(out, Matching(m, since, states), 0)
    ensures forall x :: x in out <==> x in full && x.state in states
  {
    forall x
      ensures x in out <==> x in full && x.state in states
    {
      if x in out {
        assert x.id in Matching(m, since, []) && Matching(m, since, [])[x.id] == x;
      }
      if x in full && x.state in states {
        assert x.id in Matching(m, since, states) && Matching(m, since, states)[x.id] == x;
      }
    }
  }
}
