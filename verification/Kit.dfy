/**
  The critical sections of server.go as functions of the state they run on.
  The class in Server.dfy performs them in place and is proved equal to these.
 */
module Kit {
  import opened Machines
  import Text

  datatype OpKey = OpKey(id: string, kind: Kind)

  /** A minted operation id; OpText is what goes on the wire. */
  datatype OpId = OpId(prefix: string, n: nat)

  function OpText(op: OpId): string {
    op.prefix + "-" + Text.Dec(op.n)
  }

  lemma OpTextInjective(a: OpId, b: OpId)
    requires OpText(a) == OpText(b)
    ensures a == b
  {
    Text.DashedInjective(a.prefix, a.n, b.prefix, b.n);
  }

  /** On the wire an op id is the configured prefix, a dash and the number in decimal. */
  lemma OpTextReads(op: OpId)
    ensures var text, k := OpText(op), |op.prefix|;
            && |text| > k + 1 && text[..k] == op.prefix && text[k] == '-'
            && Text.AllDigits(text[k + 1..]) && Text.Value(text[k + 1..]) == op.n
  {
    Text.DecValue(op.n);
    assert OpText(op)[|op.prefix| + 1..] == Text.Dec(op.n);
  }

  datatype Config = Config(prefix: string, canDelete: bool, requireZone: bool)

  /** Everything a snapshot holds. */
  datatype Durable = Durable(
    machines: map<string, Machine>,
    fences: map<FenceKey, FenceMark>,
    ops: map<OpKey, OpId>,
    rev: nat,
    nextOp: nat)

  /** Everything the lock guards: the durable part and the List cursor bookkeeping. */
  datatype Mem = Mem(d: Durable, lastMod: map<string, nat>)

  const NO_RECORDS := Durable(map[], map[], map[], 0, 0)

  predicate IsFresh(d: Durable) {
    d.machines == map[] && d.fences == map[] && d.ops == map[] && d.rev == 0
  }

  datatype Request = Request(kind: Kind, id: string, token: Fence, cluster: string, metadata: Attrs)

  datatype Reply =
    | InvalidArgument
    | Unimplemented
    | Fenced(mark: FenceMark)
    | NotFound
    | InvalidTransition(state: State)
    | Ack(op: OpId, machine: Machine)

  /** One accepted transition: its op id, its kind, and the record handed to the backend. */
  datatype Task = Task(op: OpId, kind: Kind, machine: Machine)

  datatype Token = Token(key: FenceKey, mark: FenceMark)

  /** What a backend operation came back with; the facts matter to Create only. */
  datatype BackendResult = Err(message: string) | Ok(host: HostRef, resources: Attrs, allocatable: Attrs)

  /** The outcome of a critical section. */
  datatype Section = Section(
    mem: Mem,
    reply: Option<Reply>,
    persist: bool,
    launched: Option<Task>,
    token: Option<Token>)

  /* ---- building blocks ---- */

  /** Store a record and give it the next revision. */
  function Put(m: Mem, id: string, rec: Machine): Mem {
    Mem(m.d.(machines := m.d.machines[id := rec], rev := m.d.rev + 1), m.lastMod[id := m.d.rev + 1])
  }

  datatype FenceCheck = Stale(mark: FenceMark) | Passed(fences: map<FenceKey, FenceMark>, token: Option<Token>)

  function CheckFence(fences: map<FenceKey, FenceMark>, id: string, f: Fence): FenceCheck {
    var key := FenceKey(f.shard, id);
    if f.Zero() then Passed(fences, None)
    else if key in fences && !Newer(fences[key], f.Mark()) then Stale(fences[key])
    else Passed(fences[key := f.Mark()], Some(Token(key, f.Mark())))
  }

  /* ---- dispatch ---- */

  function Refuse(m: Mem, reply: Reply): Section {
    Section(m, Some(reply), false, None, None)
  }

  function Dispatch(cfg: Config, m: Mem, r: Request): Section {
    if r.id == "" then Refuse(m, InvalidArgument)
    else if r.kind == Delete && !cfg.canDelete then Refuse(m, Unimplemented)
    else
      match CheckFence(m.d.fences, r.id, r.token)
      case Stale(mark) => Refuse(m, Fenced(mark))
      case Passed(fences, token) => Admit(cfg, m.(d := m.d.(fences := fences)), token, r)
  }

  predicate AtOrHeadingTo(s: State, k: Kind) {
    s == Transitional(k) || s == Stable(k)
  }

  function Admit(cfg: Config, m: Mem, token: Option<Token>, r: Request): Section {
    var key := OpKey(r.id, r.kind);
    if r.id !in m.d.machines then
      Section(m, Some(NotFound), token.Some?, None, token)
    else if key in m.d.ops && AtOrHeadingTo(m.d.machines[r.id].state, r.kind) then
      Section(m, Some(Ack(m.d.ops[key], m.d.machines[r.id])), token.Some?, None, token)
    else if !CanStart(m.d.machines[r.id].state, r.kind) then
      Section(m, Some(InvalidTransition(m.d.machines[r.id].state)), token.Some?, None, token)
    else
      var after := Accepted(cfg, m, r);
      var op, rec := after.d.ops[key], after.d.machines[r.id];
      Section(after, Some(Ack(op, rec)), true, Some(Task(op, r.kind, rec)), token)
  }

  /** Mint and record the op id, then move the machine on. */
  function Accepted(cfg: Config, m: Mem, r: Request): Mem
    requires r.id in m.d.machines
  {
    Put(Minted(m, OpKey(r.id, r.kind), cfg.prefix), r.id, Entered(m.d.machines[r.id], r))
  }

  function Minted(m: Mem, key: OpKey, prefix: string): Mem {
    m.(d := m.d.(nextOp := m.d.nextOp + 1, ops := m.d.ops[key := OpId(prefix, m.d.nextOp + 1)]))
  }

  /** The record as it enters the transitional state; Configure binds it at once. */
  function Entered(cur: Machine, r: Request): Machine {
    if r.kind == Configure
    then cur.(state := Transitional(r.kind), cluster := r.cluster, metadata := r.metadata)
    else cur.(state := Transitional(r.kind))
  }

  /* ---- completion ---- */

  const HOSTLESS_CREATE := Err("CreateInstance returned no host for a created machine")

  /** What the operation closure makes of the backend's answer. */
  function Judge(k: Kind, res: BackendResult): BackendResult {
    if k == Create && res.Ok? && res.host.Empty() then HOSTLESS_CREATE else res
  }

  function Settled(cur: Machine, k: Kind, res: BackendResult): Machine {
    match res
    case Err(message) => cur.(state := Failed, lastError := message)
    case Ok(host, resources, allocatable) =>
      var rec := cur.(state := Stable(k));
      match k
      case Create =>
        rec.(host := host,
             resources := if resources.NilAttrs? then rec.resources else resources,
             allocatable := if allocatable.NilAttrs? then rec.allocatable else allocatable)
      case Configure => rec
      case Drain => rec.(cluster := "", metadata := NilAttrs)
      case Delete => rec.(host := NO_HOST)
  }

  /** runTransition re-entering the lock; a machine no longer in the transitional state is left alone. */
  function Complete(m: Mem, t: Task, res: BackendResult): Section {
    var id := t.machine.id;
    if id !in m.d.machines || m.d.machines[id].state != Transitional(t.kind) then
      Section(m, None, false, None, None)
    else
      Section(Put(m, id, Settled(m.d.machines[id], t.kind, Judge(t.kind, res))), None, true, None, None)
  }

  /* ---- reconcile and seed ---- */

  /** Go's mapsEqual: an absent key reads as "". */
  predicate MapsEqual(a: Attrs, b: Attrs) {
    var x, y := a.Content(), b.Content();
    |x| == |y| && forall k :: k in x ==> (if k in y then y[k] else "") == x[k]
  }

  function Refresh(cur: Machine, ins: Instance): Machine {
    cur.(price := ins.price,
         interruption := ins.interruption,
         resources := if MapsEqual(cur.resources, ins.resources) then cur.resources else ins.resources,
         allocatable := if MapsEqual(cur.allocatable, ins.allocatable) then cur.allocatable else ins.allocatable,
         labels := if MapsEqual(cur.labels, ins.labels) then cur.labels else ins.labels)
  }

  predicate Changes(cur: Machine, ins: Instance) {
    || cur.price.Differs(ins.price)
    || cur.interruption.Differs(ins.interruption)
    || !MapsEqual(cur.resources, ins.resources)
    || !MapsEqual(cur.allocatable, ins.allocatable)
    || !MapsEqual(cur.labels, ins.labels)
  }

  function ReconcileOne(cfg: Config, m: Mem, ins: Instance): Mem {
    if !ins.Valid(cfg.requireZone) then m
    else if ins.id !in m.d.machines then Put(m, ins.id, ins.ToMachine())
    else if Changes(m.d.machines[ins.id], ins) then Put(m, ins.id, Refresh(m.d.machines[ins.id], ins))
    else m
  }

  function Reconcile(cfg: Config, m: Mem, list: seq<Instance>): Mem {
    if |list| == 0 then m
    else ReconcileOne(cfg, Reconcile(cfg, m, list[..|list| - 1]), list[|list| - 1])
  }

  predicate DistinctIds(list: seq<Instance>) {
    forall i, j :: 0 <= i < j < |list| ==> list[i].id != list[j].id
  }

  predicate Seedable(cfg: Config, list: seq<Instance>) {
    DistinctIds(list) && forall i :: 0 <= i < |list| ==> list[i].Valid(cfg.requireZone)
  }

  /* ---- load and recover ---- */

  function Loaded(d: Durable): Mem {
    Mem(d, map id | id in d.machines :: d.rev)
  }

  function Interrupted(m: Machine): Machine
    requires IsTransitional(m.state)
  {
    m.(state := Failed,
       lastError := KindText(KindOf(m.state)) + " transition interrupted by a provider restart; needs re-drive")
  }

  function InFlight(d: Durable): set<string> {
    set id | id in d.machines && IsTransitional(d.machines[id].state)
  }

  function Recover(d: Durable): Durable {
    d.(machines := map id | id in d.machines ::
         if IsTransitional(d.machines[id].state) then Interrupted(d.machines[id]) else d.machines[id],
       rev := d.rev + |InFlight(d)|)
  }

  /**
    recoverInterrupted ranges over a Go map, so which interrupted machine gets which of the
    fresh revisions is open; everything else is fixed.
   */
  predicate RecoveredTo(before: Mem, after: Mem) {
    && after.d == Recover(before.d)
    && after.lastMod.Keys == before.lastMod.Keys + InFlight(before.d)
    && (forall id :: id in before.lastMod && id !in InFlight(before.d) ==> after.lastMod[id] == before.lastMod[id])
    && (forall id :: id in InFlight(before.d) ==> before.d.rev < after.lastMod[id] <= after.d.rev)
    && DistinctRevisions(after.lastMod, InFlight(before.d))
  }

  predicate DistinctRevisions(lastMod: map<string, nat>, ids: set<string>)
    requires ids <= lastMod.Keys
  {
    forall a, b :: a in ids && b in ids && lastMod[a] == lastMod[b] ==> a == b
  }

  /* ---- list ---- */

  predicate Listed(m: Mem, since: Option<int>, states: seq<State>, id: string) {
    && id in m.d.machines
    && (since.Some? ==> (if id in m.lastMod then m.lastMod[id] else 0) > since.value)
    && (states == [] || m.d.machines[id].state in states)
  }

  function Matching(m: Mem, since: Option<int>, states: seq<State>): map<string, Machine> {
    map id | id in m.d.machines && Listed(m, since, states, id) :: m.d.machines[id]
  }

  predicate DistinctMachines(out: seq<Machine>) {
    forall i, j :: 0 <= i < j < |out| ==> out[i].id != out[j].id
  }

  /** A List answer: the matching machines once each, all of them unless max cuts the answer short. */
  predicate Answers(out: seq<Machine>, all: map<string, Machine>, max: int) {
    && (forall m :: m in out ==> m.id in all && all[m.id] == m)
    && DistinctMachines(out)
    && (if 0 < max < |all| then |out| == max else forall id :: id in all ==> all[id] in out)
  }
}
