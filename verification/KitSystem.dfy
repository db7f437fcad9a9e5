/**
  One provider process, its store and its backend as a transition system.

  A critical section is three steps: Begin runs it in memory under the lock, Commit is Store.Save
  returning, Release unlocks, delivers the reply and starts the background work. A crash may fall
  between any two of them; it loses memory and goroutines and keeps the store. Backend calls run
  outside the lock and may return at any time, also after the transition timed out or the process died.
 */
module KitSystem {
  import opened Machines
  import opened Kit
  import opened Reconciliation

  /** What a critical section was entered for; the last two are the two ways New starts. */
  datatype Input =
    | Rpc(request: Request)
    | Finish(task: Task, res: BackendResult)
    | Merge(listing: seq<Instance>)
    | Seeding(listing: seq<Instance>)
    | Recovering(after: Mem)
  {
    predicate Boots() {
      Seeding? || Recovering?
    }
  }

  datatype Proc =
    | Down
    | Up(mem: Mem)
    | Locked(before: Mem, input: Input, sec: Section, saved: bool)

  /** A backend operation: ConfigureInstance returned success, ConfirmNodeReady did, the closure returned. */
  datatype Call = Call(task: Task, applied: bool, ready: bool, returned: Option<BackendResult>)

  datatype Binding = Binding(cluster: string, metadata: Attrs)

  datatype Sys = Sys(
    proc: Proc,
    disk: Durable,
    tasks: map<nat, Task>,        // runTransition goroutines of the running process, by op number
    calls: map<nat, Call>,        // every backend call ever started, by op number
    handed: seq<OpId>,            // history: op ids given to the backend, oldest first
    acked: set<OpId>,             // history: op ids returned to a caller
    tokens: seq<Token>,           // history: fencing tokens durably accepted, oldest first
    asked: map<nat, Request>)     // history: the accepted Configure requests, by op number

  /** The options of a run; gated says whether the backend is a ReadinessChecker. */
  datatype Setup = Setup(cfg: Config, gated: bool)

  datatype Label =
    | Begin(input: Input)
    | Commit
    | Release
    | Crash
    | Boot(input: Input)
    | Applied(n: nat)
    | Confirmed(n: nat)
    | Returned(n: nat, res: BackendResult)

  const START := Sys(Down, NO_RECORDS, map[], map[], [], {}, [], map[])

  function RunSection(cfg: Config, m: Mem, input: Input): Section {
    match input
    case Rpc(r) => Dispatch(cfg, m, r)
    case Finish(t, res) => Complete(m, t, res)
    case Merge(list) =>
      var after := Reconcile(cfg, m, list);
      Section(after, None, after.d.rev != m.d.rev, None, None)
    case Seeding(list) => Section(Reconcile(cfg, m, list), None, true, None, None)
    case Recovering(after) => Section(after, None, InFlight(m.d) != {}, None, None)
  }

  /** A completion carries the backend's answer or, at any time, a timeout error. */
  predicate Completable(s: Sys, t: Task, res: BackendResult) {
    var n := t.op.n;
    n in s.tasks && s.tasks[n] == t && n in s.calls && (res.Err? || s.calls[n].returned == Some(res))
  }

  predicate Enabled(u: Setup, s: Sys, l: Label) {
    match l
    case Begin(input) => s.proc.Up? && !input.Boots() && (input.Finish? ==> Completable(s, input.task, input.res))
    case Commit => s.proc.Locked? && !s.proc.saved && s.proc.sec.persist
    case Release => s.proc.Locked? && (s.proc.saved || !s.proc.sec.persist)
    case Crash => !s.proc.Down?
    case Boot(input) =>
      && s.proc.Down?
      && if IsFresh(s.disk) then input.Seeding? && Seedable(u.cfg, input.listing)
         else input.Recovering? && RecoveredTo(Loaded(s.disk), input.after)
    case Applied(n) => n in s.calls && s.calls[n].task.kind == Configure && s.calls[n].returned == None
    case Confirmed(n) => n in s.calls && u.gated && s.calls[n].applied && s.calls[n].returned == None
    case Returned(n, res) =>
      && n in s.calls && s.calls[n].returned == None
      && (res.Ok? && s.calls[n].task.kind == Configure ==> s.calls[n].applied && (u.gated ==> s.calls[n].ready))
  }

  function TasksAfter(tasks: map<nat, Task>, input: Input, launched: Option<Task>): map<nat, Task> {
    var rest := if input.Finish? then tasks - {input.task.op.n} else tasks;
    if launched.Some? then rest[launched.value.op.n := launched.value] else rest
  }

  function Entering(s: Sys, cfg: Config, m: Mem, input: Input): Sys {
    s.(proc := Locked(m, input, RunSection(cfg, m, input), false))
  }

  function Committed(s: Sys): Sys
    requires s.proc.Locked?
  {
    var sec := s.proc.sec;
    s.(proc := s.proc.(saved := true),
       disk := sec.mem.d,
       tasks := TasksAfter(s.tasks, s.proc.input, sec.launched),
       tokens := if sec.token.Some? then s.tokens + [sec.token.value] else s.tokens,
       asked := AskedAfter(s.asked, s.proc.input, sec.launched))
  }

  function AskedAfter(asked: map<nat, Request>, input: Input, launched: Option<Task>): map<nat, Request> {
    if launched.Some? && input.Rpc? && input.request.kind == Configure
    then asked[launched.value.op.n := input.request] else asked
  }

  function Released(s: Sys): Sys
    requires s.proc.Locked?
  {
    var sec := s.proc.sec;
    s.(proc := Up(sec.mem),
       tasks := TasksAfter(s.tasks, s.proc.input, sec.launched),
       acked := if sec.reply.Some? && sec.reply.value.Ack? then s.acked + {sec.reply.value.op} else s.acked,
       calls := if sec.launched.Some?
         then s.calls[sec.launched.value.op.n := Call(sec.launched.value, false, false, None)] else s.calls,
       handed := if sec.launched.Some? then s.handed + [sec.launched.value.op] else s.handed)
  }

  function Crashed(s: Sys): Sys {
    s.(proc := Down, tasks := map[])
  }

  function WithCall(s: Sys, n: nat, c: Call): Sys {
    s.(calls := s.calls[n := c])
  }

  function Next(u: Setup, s: Sys, l: Label): Sys
    requires Enabled(u, s, l)
  {
    match l
    case Begin(input) => Entering(s, u.cfg, s.proc.mem, input)
    case Commit => Committed(s)
    case Release => Released(s)
    case Crash => Crashed(s)
    case Boot(input) => Entering(s, u.cfg, Loaded(s.disk), input)
    case Applied(n) => WithCall(s, n, s.calls[n].(applied := true))
    case Confirmed(n) => WithCall(s, n, s.calls[n].(ready := true))
    case Returned(n, res) => WithCall(s, n, s.calls[n].(returned := Some(res)))
  }

  function BindingOf(m: Machine): Binding {
    Binding(m.cluster, m.metadata)
  }

  /** A run: states joined by enabled labels, from the empty store. */
  ghost predicate Run(u: Setup, states: seq<Sys>, labels: seq<Label>) {
    && |states| == |labels| + 1
    && states[0] == START
    && forall i :: 0 <= i < |labels| ==>
         Enabled(u, states[i], labels[i]) && states[i + 1] == Next(u, states[i], labels[i])
  }

  /* ------------------------------------------------------------------ */
  /* Invariant 1: the store is well formed                               */

  ghost predicate DiskOk(d: Durable) {
    MachinesOk(d.machines) && OpsOk(d)
  }

  ghost predicate MachinesOk(machines: map<string, Machine>) {
    forall id :: id in machines ==> machines[id].id == id && InShape(machines[id])
  }

  ghost predicate OpsOk(d: Durable) {
    OpsMinted(d) && OpsDistinct(d.ops) && OpsCover(d.machines, d.ops)
  }

  ghost predicate OpsMinted(d: Durable) {
    && (forall key :: key in d.ops ==> 0 < d.ops[key].n <= d.nextOp && key.id in d.machines)
    && (d.ops == map[] ==> d.nextOp == 0)
  }

  ghost predicate OpsDistinct(ops: map<OpKey, OpId>) {
    forall a, b :: a in ops && b in ops && ops[a].n == ops[b].n ==> a == b
  }

  ghost predicate OpsCover(machines: map<string, Machine>, ops: map<OpKey, OpId>) {
    forall id :: id in machines ==> OpsRecorded(ops, id, machines[id].state)
  }

  /** The op ids a machine in state s must have on record. */
  predicate OpsRecorded(ops: map<OpKey, OpId>, id: string, s: State) {
    && (IsTransitional(s) ==> OpKey(id, KindOf(s)) in ops)
    && (s == Configured || s == Draining ==> OpKey(id, Configure) in ops)
  }

  /** The List bookkeeping covers exactly the machines and never runs ahead of the revision. */
  ghost predicate CursorOk(m: Mem) {
    m.lastMod.Keys == m.d.machines.Keys && forall id :: id in m.lastMod ==> m.lastMod[id] <= m.d.rev
  }

  ghost predicate MemOk(m: Mem) {
    DiskOk(m.d) && CursorOk(m)
  }

  lemma PutKeepsMem(m: Mem, id: string, rec: Machine)
    requires MemOk(m) && rec.id == id && InShape(rec) && OpsRecorded(m.d.ops, id, rec.state)
    ensures MemOk(Put(m, id, rec))
  {
    hide InShape;
  }

  lemma MintKeepsMem(m: Mem, key: OpKey, prefix: string)
    requires MemOk(m) && key.id in m.d.machines
    ensures MemOk(Minted(m, key, prefix))
  {
    hide InShape;
    var ops := Minted(m, key, prefix).d.ops;
    assert key in ops;
    assert OpsDistinct(ops) by {
      hide OpsCover;
      hide CursorOk;
    }
  }

  lemma EnteredInShape(cur: Machine, r: Request)
    requires InShape(cur) && CanStart(cur.state, r.kind)
    ensures InShape(Entered(cur, r))
  {
  }

  lemma AcceptedKeepsMem(cfg: Config, m: Mem, r: Request)
    requires MemOk(m) && r.id in m.d.machines && CanStart(m.d.machines[r.id].state, r.kind)
    ensures MemOk(Accepted(cfg, m, r))
  {
    hide InShape;
    hide CursorOk;
    hide OpsDistinct;
    assert OpsRecorded(m.d.ops, r.id, m.d.machines[r.id].state);
    hide OpsOk;
    EnteredInShape(m.d.machines[r.id], r);
    MintKeepsMem(m, OpKey(r.id, r.kind), cfg.prefix);
    hide MemOk;
    PutKeepsMem(Minted(m, OpKey(r.id, r.kind), cfg.prefix), r.id, Entered(m.d.machines[r.id], r));
  }

  lemma FencesKeepMem(m: Mem, fences: map<FenceKey, FenceMark>)
    requires MemOk(m)
    ensures MemOk(m.(d := m.d.(fences := fences)))
  {
  }

  /** All that a dispatch does to the records: nothing, or the accepted transition. */
  lemma DispatchShape(cfg: Config, m: Mem, r: Request)
    ensures var s := Dispatch(cfg, m, r);
            match s.launched
            case None => s.mem.d == m.d.(fences := s.mem.d.fences)
            case Some(t) =>
              && r.id in m.d.machines && CanStart(m.d.machines[r.id].state, r.kind)
              && s.mem.d.machines == m.d.machines[r.id := Entered(m.d.machines[r.id], r)]
              && s.mem.d.ops == m.d.ops[OpKey(r.id, r.kind) := t.op]
  {
    hide CanStart, Entered;
  }

  lemma DispatchKeepsMem(cfg: Config, m: Mem, r: Request)
    requires MemOk(m)
    ensures MemOk(Dispatch(cfg, m, r).mem)
  {
    hide MemOk;
    hide Accepted;
    match CheckFence(m.d.fences, r.id, r.token)
    case Stale(_) =>
    case Passed(fences, _) =>
      FencesKeepMem(m, fences);
      var fenced := m.(d := m.d.(fences := fences));
      if r.id in m.d.machines && CanStart(m.d.machines[r.id].state, r.kind) {
        AcceptedKeepsMem(cfg, fenced, r);
      }
  }

  lemma SettledInShape(cur: Machine, k: Kind, res: BackendResult)
    requires InShape(cur) && cur.state == Transitional(k)
    ensures InShape(Settled(cur, k, Judge(k, res)))
  {
  }

  lemma CompleteKeepsMem(m: Mem, t: Task, res: BackendResult)
    requires MemOk(m)
    ensures MemOk(Complete(m, t, res).mem)
  {
    hide MemOk, InShape, Settled, Judge;
    var id := t.machine.id;
    if Complete(m, t, res).persist {
      var cur := m.d.machines[id];
      RecordIsOk(m, id);
      SettledInShape(cur, t.kind, res);
      SettledAtRest(m.d.ops, cur, t.kind, res);
      PutKeepsMem(m, id, Settled(cur, t.kind, Judge(t.kind, res)));
    }
  }

  lemma RecordIsOk(m: Mem, id: string)
    requires MemOk(m) && id in m.d.machines
    ensures var cur := m.d.machines[id]; InShape(cur) && cur.id == id && OpsRecorded(m.d.ops, id, cur.state)
  {
    hide InShape;
  }

  lemma SettledAtRest(ops: map<OpKey, OpId>, cur: Machine, k: Kind, res: BackendResult)
    requires cur.state == Transitional(k) && OpsRecorded(ops, cur.id, cur.state)
    ensures Settled(cur, k, Judge(k, res)).id == cur.id
    ensures OpsRecorded(ops, cur.id, Settled(cur, k, Judge(k, res)).state)
  {
  }

  lemma {:induction false} ReconcileKeepsMem(cfg: Config, m: Mem, list: seq<Instance>)
    requires MemOk(m)
    ensures MemOk(Reconcile(cfg, m, list))
  {
    if |list| > 0 {
      var init, e := Reconcile(cfg, m, list[..|list| - 1]), list[|list| - 1];
      ReconcileKeepsMem(cfg, m, list[..|list| - 1]);
      if e.Valid(cfg.requireZone) {
        PutKeepsMem(init, e.id, if e.id in init.d.machines then Refresh(init.d.machines[e.id], e) else e.ToMachine());
      }
    }
  }

  lemma RecoverKeepsMem(before: Mem, after: Mem)
    requires MemOk(before) && RecoveredTo(before, after)
    ensures MemOk(after) && InFlight(after.d) == {}
  {
    RecoverKeepsDisk(before.d);
    RecoverKeepsCursor(before, after);
  }

  /** Nothing in flight, nothing to recover: the restart leaves memory as loaded. */
  lemma RecoverNothing(before: Mem, after: Mem)
    requires CursorOk(before) && RecoveredTo(before, after) && InFlight(before.d) == {}
    ensures after == before
  {
    NothingInFlight(before.d);
    hide InFlight;
    assert after.lastMod == before.lastMod;
  }

  lemma RecoverKeepsCursor(before: Mem, after: Mem)
    requires CursorOk(before) && RecoveredTo(before, after)
    ensures CursorOk(after)
  {
    assert InFlight(before.d) <= before.d.machines.Keys;
    hide InFlight;
  }

  lemma NothingInFlight(d: Durable)
    requires InFlight(d) == {}
    ensures Recover(d) == d
  {
    forall id | id in d.machines
      ensures !IsTransitional(d.machines[id].state)
    {
      assert id !in InFlight(d);
    }
    assert Recover(d).machines == d.machines;
  }

  lemma RecoverKeepsDisk(d: Durable)
    requires DiskOk(d)
    ensures DiskOk(Recover(d)) && InFlight(Recover(d)) == {}
  {
    hide MachinesOk, OpsDistinct, OpsCover, InFlight, Interrupted;
    RecoverKeepsMachines(d);
    RecoverKeepsCover(d);
    NoneLeftInFlight(d);
  }

  lemma NoneLeftInFlight(d: Durable)
    ensures InFlight(Recover(d)) == {}
  {
  }

  lemma RecoverKeepsMachines(d: Durable)
    requires MachinesOk(d.machines)
    ensures MachinesOk(Recover(d).machines)
  {
    hide InShape, InFlight, Interrupted;
    forall id | id in d.machines
      ensures Recover(d).machines[id].id == id && InShape(Recover(d).machines[id])
    {
      assert d.machines[id].id == id && InShape(d.machines[id]);
      if IsTransitional(d.machines[id].state) {
        InterruptedInShape(d.machines[id]);
      }
    }
  }

  lemma InterruptedInShape(m: Machine)
    requires InShape(m) && IsTransitional(m.state)
    ensures InShape(Interrupted(m)) && Interrupted(m).id == m.id
  {
  }

  lemma RecoverKeepsCover(d: Durable)
    requires OpsCover(d.machines, d.ops)
    ensures OpsCover(Recover(d).machines, d.ops)
  {
  }
}
