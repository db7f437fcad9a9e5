/** Invariants that speak of the past: op ids, fencing tokens, bindings and backend answers. */
module KitHistory {
  import opened Machines
  import opened Kit
  import opened Reconciliation
  import opened KitSystem
  import opened KitInvariants

  /** How a section moves the operation counter. */
  lemma SectionOps(cfg: Config, b: Mem, input: Input)
    requires InputOk(cfg, b, input)
    ensures var s := RunSection(cfg, b, input);
            match s.launched
            case Some(t) =>
              && s.persist && t.op == OpId(cfg.prefix, b.d.nextOp + 1) && s.mem.d.nextOp == t.op.n
              && s.mem.d.ops == b.d.ops[OpKey(input.request.id, t.kind) := t.op]
            case None => s.mem.d.nextOp == b.d.nextOp && s.mem.d.ops == b.d.ops
    ensures RunSection(cfg, b, input).launched.Some? ==>
              input.Rpc? && input.request.kind == RunSection(cfg, b, input).launched.value.kind
  {
    match input
    case Rpc(r) =>
    case Finish(t, res) =>
    case Merge(list) => KeepsOverlay(cfg, b, list);
    case Seeding(list) => KeepsOverlay(cfg, b, list);
    case Recovering(after) =>
  }

  /** An acknowledged op id is always one the section's result has on record. */
  lemma AckIsRecorded(cfg: Config, b: Mem, input: Input)
    requires MemOk(b) && InputOk(cfg, b, input)
    ensures var s := RunSection(cfg, b, input);
            s.reply.Some? && s.reply.value.Ack? ==> 0 < s.reply.value.op.n <= s.mem.d.nextOp
  {
    hide MemOk, Reconcile, RecoveredTo, Seedable, IsFresh, Loaded;
    OpsAreMinted(b);
    if input.Rpc? {
      AckedOp(cfg, b, input.request);
    }
  }

  lemma OpsAreMinted(b: Mem)
    requires MemOk(b)
    ensures OpsMinted(b.d)
  {
    hide OpsMinted;
  }

  lemma AckedOp(cfg: Config, b: Mem, r: Request)
    requires OpsMinted(b.d)
    ensures var s := Dispatch(cfg, b, r);
            s.reply.value.Ack? ==> 0 < s.reply.value.op.n <= s.mem.d.nextOp
  {
    hide CanStart, Entered, AtOrHeadingTo;
  }

  /* ---- calls, hand-overs and acknowledgements ---- */

  predicate Launching(s: Sys, n: nat) {
    s.proc.Locked? && s.proc.saved && s.proc.sec.launched.Some? && s.proc.sec.launched.value.op.n == n
  }

  ghost predicate CallsOk(s: Sys) {
    && (forall n :: n in s.calls ==> s.calls[n].task.op.n == n && 0 < n <= s.disk.nextOp)
    && (forall n :: n in s.tasks && n in s.calls ==> s.calls[n].task == s.tasks[n])
    && (forall n :: n in s.tasks && n !in s.calls ==> Launching(s, n))
    && (forall n :: Launching(s, n) ==> n == s.disk.nextOp && n !in s.calls)
  }

  ghost predicate HandedOk(s: Sys) {
    && (forall i :: 0 <= i < |s.handed| ==> s.handed[i].n in s.calls && s.calls[s.handed[i].n].task.op == s.handed[i])
    && (forall i, j :: 0 <= i < j < |s.handed| ==> s.handed[i].n < s.handed[j].n)
    && (forall op :: op in s.acked ==> 0 < op.n <= s.disk.nextOp)
  }

  lemma NextKeepsCalls(u: Setup, s: Sys, l: Label)
    requires StoreOk(u.cfg, s) && TasksOk(s) && CallsOk(s) && HandedOk(s) && Enabled(u, s, l)
    ensures CallsOk(Next(u, s, l)) && HandedOk(Next(u, s, l))
  {
    hide StoreOk, TasksOk, CallsOk, HandedOk, RunSection, Loaded;
    match l
    case Commit => CommitKeepsCalls(u, s);
    case Release => ReleaseKeepsCalls(u, s);
    case Begin(input) => EnterKeepsCalls(s, u.cfg, s.proc.mem, input);
    case Boot(input) => EnterKeepsCalls(s, u.cfg, Loaded(s.disk), input);
    case Crash => CrashKeepsCalls(s);
    case Applied(n) => UpdateKeepsCalls(s, n, Next(u, s, l).calls[n]);
    case Confirmed(n) => UpdateKeepsCalls(s, n, Next(u, s, l).calls[n]);
    case Returned(n, res) => UpdateKeepsCalls(s, n, Next(u, s, l).calls[n]);
  }

  lemma CrashKeepsCalls(s: Sys)
    requires CallsOk(s) && HandedOk(s)
    ensures CallsOk(Crashed(s)) && HandedOk(Crashed(s))
  {
  }

  lemma UpdateKeepsCalls(s: Sys, n: nat, c: Call)
    requires CallsOk(s) && HandedOk(s) && n in s.calls && c.task == s.calls[n].task
    ensures CallsOk(WithCall(s, n, c)) && HandedOk(WithCall(s, n, c))
  {
    forall k | Launching(WithCall(s, n, c), k)
      ensures Launching(s, k)
    {
    }
  }

  lemma EnterKeepsCalls(s: Sys, cfg: Config, m: Mem, input: Input)
    requires !s.proc.Locked? && CallsOk(s) && HandedOk(s)
    ensures CallsOk(Entering(s, cfg, m, input)) && HandedOk(Entering(s, cfg, m, input))
  {
    hide RunSection;
  }

  lemma CommitKeepsCalls(u: Setup, s: Sys)
    requires StoreOk(u.cfg, s) && CallsOk(s) && HandedOk(s) && Enabled(u, s, Commit)
    ensures CallsOk(Committed(s)) && HandedOk(Committed(s))
  {
    hide DiskOk, CursorOk, RunSection, InputOk;
    SectionOps(u.cfg, s.proc.before, s.proc.input);
  }

  lemma ReleaseKeepsCalls(u: Setup, s: Sys)
    requires StoreOk(u.cfg, s) && TasksOk(s) && CallsOk(s) && HandedOk(s) && Enabled(u, s, Release)
    ensures CallsOk(Released(s)) && HandedOk(Released(s))
  {
    hide StoreOk, TasksOk, CallsOk, HandedOk, Enabled;
    ReleaseFacts(u, s);
    ReleasedCalls(s);
    ReleasedHanded(s);
  }

  lemma ReleaseFacts(u: Setup, s: Sys)
    requires StoreOk(u.cfg, s) && TasksOk(s) && Enabled(u, s, Release)
    ensures s.proc.Locked? && Released(s).tasks == s.tasks && s.disk == s.proc.sec.mem.d
    ensures var sec := s.proc.sec;
            && (sec.launched.Some? ==> Launching(s, sec.launched.value.op.n) && sec.launched.value.op.n > 0)
            && (sec.reply.Some? && sec.reply.value.Ack? ==> 0 < sec.reply.value.op.n <= s.disk.nextOp)
  {
    hide DiskOk, CursorOk, RunSection, InputOk, Live;
    SectionOps(u.cfg, s.proc.before, s.proc.input);
    AckIsRecorded(u.cfg, s.proc.before, s.proc.input);
    ReleaseKeepsTasks(u, s);
    ReleaseKeepsStore(u, s);
  }

  lemma ReleasedCalls(s: Sys)
    requires CallsOk(s) && s.proc.Locked? && Released(s).tasks == s.tasks
    requires s.proc.sec.launched.Some? ==>
               Launching(s, s.proc.sec.launched.value.op.n) && s.proc.sec.launched.value.op.n > 0
    ensures CallsOk(Released(s))
  {
    if s.proc.sec.launched.Some? {
      LaunchedTask(s);
    }
  }

  lemma LaunchedTask(s: Sys)
    requires s.proc.Locked? && s.proc.sec.launched.Some? && Released(s).tasks == s.tasks
    ensures var t := s.proc.sec.launched.value; t.op.n in s.tasks && s.tasks[t.op.n] == t
  {
  }

  lemma ReleasedHanded(s: Sys)
    requires CallsOk(s) && HandedOk(s) && s.proc.Locked?
    requires s.proc.sec.launched.Some? ==> Launching(s, s.proc.sec.launched.value.op.n)
    requires s.proc.sec.reply.Some? && s.proc.sec.reply.value.Ack? ==> 0 < s.proc.sec.reply.value.op.n <= s.disk.nextOp
    ensures HandedOk(Released(s))
  {
  }

  /* ---- fencing tokens ---- */

  predicate AtMost(a: FenceMark, b: FenceMark) {
    a == b || Newer(a, b)
  }

  predicate Covered(tokens: seq<Token>, key: FenceKey, mark: FenceMark) {
    Token(key, mark) in tokens
  }

  ghost predicate TokensOk(tokens: seq<Token>, fences: map<FenceKey, FenceMark>) {
    && (forall i :: 0 <= i < |tokens| ==> tokens[i].key in fences && AtMost(tokens[i].mark, fences[tokens[i].key]))
    && (forall i, j :: 0 <= i < j < |tokens| && tokens[i].key == tokens[j].key ==>
         Newer(tokens[i].mark, tokens[j].mark))
    && (forall key :: key in fences ==> Covered(tokens, key, fences[key]))
  }

  /** A section moves at most one mark, upwards, and says so in its token. */
  lemma SectionFences(cfg: Config, b: Mem, input: Input)
    requires InputOk(cfg, b, input)
    ensures var s := RunSection(cfg, b, input);
            match s.token
            case None => s.mem.d.fences == b.d.fences
            case Some(t) =>
              && s.mem.d.fences == b.d.fences[t.key := t.mark]
              && (t.key in b.d.fences ==> Newer(b.d.fences[t.key], t.mark))
  {
    match input
    case Rpc(r) =>
    case Finish(t, res) =>
    case Merge(list) => KeepsOverlay(cfg, b, list);
    case Seeding(list) => KeepsOverlay(cfg, b, list);
    case Recovering(after) =>
  }

  lemma NextKeepsTokens(u: Setup, s: Sys, l: Label)
    requires StoreOk(u.cfg, s) && TokensOk(s.tokens, s.disk.fences) && Enabled(u, s, l)
    ensures TokensOk(Next(u, s, l).tokens, Next(u, s, l).disk.fences)
  {
    hide DiskOk, CursorOk, RunSection, InputOk, Loaded, TokensOk;
    if l.Commit? {
      SectionFences(u.cfg, s.proc.before, s.proc.input);
      if s.proc.sec.token.Some? {
        TokenSaved(s.tokens, s.disk.fences, s.proc.sec.token.value);
      }
    }
  }

  lemma TokenSaved(tokens: seq<Token>, fences: map<FenceKey, FenceMark>, t: Token)
    requires TokensOk(tokens, fences) && (t.key in fences ==> Newer(fences[t.key], t.mark))
    ensures TokensOk(tokens + [t], fences[t.key := t.mark])
  {
    var all, after := tokens + [t], fences[t.key := t.mark];
    assert all[|tokens|] == t && forall i :: 0 <= i < |tokens| ==> all[i] == tokens[i];
    forall key | key in after
      ensures Covered(all, key, after[key])
    {
      if key != t.key {
        assert Covered(tokens, key, fences[key]);
      }
    }
  }

  /* ---- bindings ---- */

  const UNBOUND := Binding("", NilAttrs)

  predicate Asks(r: Request, id: string, b: Binding) {
    r.kind == Configure && r.id == id && r.cluster == b.cluster && r.metadata == b.metadata
  }

  /** A bound record carries, verbatim, what the Configure with its recorded op id asked for. */
  ghost predicate BindingKept(d: Durable, asked: map<nat, Request>, id: string)
    requires id in d.machines
  {
    var m, key := d.machines[id], OpKey(id, Configure);
    Bound(m.state) || BindingOf(m) != UNBOUND ==>
      key in d.ops && d.ops[key].n in asked && Asks(asked[d.ops[key].n], id, BindingOf(m))
  }

  ghost predicate BindingsOk(d: Durable, asked: map<nat, Request>) {
    && (forall n :: n in asked ==> n <= d.nextOp)
    && (forall id :: id in d.machines ==> BindingKept(d, asked, id))
  }

  lemma CommitKeepsBindings(cfg: Config, b: Mem, input: Input, asked: map<nat, Request>)
    requires MemOk(b) && InputOk(cfg, b, input) && BindingsOk(b.d, asked)
    ensures var s := RunSection(cfg, b, input); BindingsOk(s.mem.d, AskedAfter(asked, input, s.launched))
  {
    SectionOps(cfg, b, input);
    forall id | id in RunSection(cfg, b, input).mem.d.machines
      ensures var s := RunSection(cfg, b, input); BindingKept(s.mem.d, AskedAfter(asked, input, s.launched), id)
    {
      hide BindingsOk, BindingKept, MemOk;
      match input
      case Rpc(r) => DispatchKeepsBinding(cfg, b, r, asked, id);
      case Finish(t, res) => CompleteKeepsBinding(b, t, res, asked, id);
      case Merge(list) => ReconcileKeepsBinding(cfg, b, list, asked, id);
      case Seeding(list) => ReconcileKeepsBinding(cfg, b, list, asked, id);
      case Recovering(after) => RecoverKeepsBinding(b, after, asked, id);
    }
    hide BindingKept, RunSection, InputOk, MemOk;
  }

  lemma DispatchKeepsBinding(cfg: Config, b: Mem, r: Request, asked: map<nat, Request>, id: string)
    requires MemOk(b) && BindingsOk(b.d, asked) && id in Dispatch(cfg, b, r).mem.d.machines
    ensures var s := Dispatch(cfg, b, r); BindingKept(s.mem.d, AskedAfter(asked, Rpc(r), s.launched), id)
  {
    hide MemOk, Accepted, BindingsOk, BindingKept;
    match CheckFence(b.d.fences, r.id, r.token)
    case Stale(_) => BindingAt(b.d, b.d.fences, asked, id);
    case Passed(fences, _) =>
      BindingAt(b.d, fences, asked, id);
      if r.id in b.d.machines && CanStart(b.d.machines[r.id].state, r.kind) {
        var fenced := b.(d := b.d.(fences := fences));
        FencesKeepMem(b, fences);
        AcceptedKeys(cfg, fenced, r);
        AcceptedKeepsBinding(cfg, fenced, r, asked, id);
      }
  }

  lemma BindingAt(d: Durable, fences: map<FenceKey, FenceMark>, asked: map<nat, Request>, id: string)
    requires BindingsOk(d, asked)
    ensures BindingsOk(d.(fences := fences), asked)
    ensures id in d.machines ==> BindingKept(d, asked, id) && BindingKept(d.(fences := fences), asked, id)
  {
    forall i | i in d.machines
      ensures BindingKept(d.(fences := fences), asked, i)
    {
      assert BindingKept(d, asked, i);
    }
  }

  lemma AcceptedKeys(cfg: Config, b: Mem, r: Request)
    requires r.id in b.d.machines
    ensures Accepted(cfg, b, r).d.machines.Keys == b.d.machines.Keys
  {
  }

  lemma AcceptedKeepsBinding(cfg: Config, b: Mem, r: Request, asked: map<nat, Request>, id: string)
    requires MemOk(b) && BindingsOk(b.d, asked) && id in b.d.machines
    requires r.id in b.d.machines && CanStart(b.d.machines[r.id].state, r.kind)
    ensures var after := Accepted(cfg, b, r).d;
            var t := Task(after.ops[OpKey(r.id, r.kind)], r.kind, after.machines[r.id]);
            id in after.machines && BindingKept(after, AskedAfter(asked, Rpc(r), Some(t)), id)
  {
    hide OpsOk, CursorOk;
    assert BindingKept(b.d, asked, id);
    assert InShape(b.d.machines[r.id]);
  }

  lemma CompleteKeepsBinding(b: Mem, t: Task, res: BackendResult, asked: map<nat, Request>, id: string)
    requires BindingsOk(b.d, asked) && id in Complete(b, t, res).mem.d.machines
    ensures BindingKept(Complete(b, t, res).mem.d, asked, id)
  {
    assert BindingKept(b.d, asked, id);
  }

  lemma RecoverKeepsBinding(b: Mem, after: Mem, asked: map<nat, Request>, id: string)
    requires BindingsOk(b.d, asked) && RecoveredTo(b, after) && id in after.d.machines
    ensures BindingKept(after.d, asked, id)
  {
    hide InFlight;
    assert BindingKept(b.d, asked, id);
  }

  lemma {:induction false} ReconcileKeepsBinding(cfg: Config, b: Mem, list: seq<Instance>, asked: map<nat, Request>,
      id: string)
    requires BindingsOk(b.d, asked) && id in Reconcile(cfg, b, list).d.machines
    ensures BindingKept(Reconcile(cfg, b, list).d, asked, id)
  {
    KeepsOverlay(cfg, b, list);
    if id in b.d.machines {
      assert BindingKept(b.d, asked, id);
    } else {
      NewcomersAreUnbound(cfg, b, list, id);
    }
  }

  lemma {:induction false} NewcomersAreUnbound(cfg: Config, b: Mem, list: seq<Instance>, id: string)
    requires id !in b.d.machines && id in Reconcile(cfg, b, list).d.machines
    ensures var m := Reconcile(cfg, b, list).d.machines[id];
            BindingOf(m) == UNBOUND && (m.state == Speculative || m.state == Idle)
  {
    if |list| > 0 && id in Reconcile(cfg, b, list[..|list| - 1]).d.machines {
      NewcomersAreUnbound(cfg, b, list[..|list| - 1], id);
    }
  }

  lemma NextKeepsBindings(u: Setup, s: Sys, l: Label)
    requires StoreOk(u.cfg, s) && BindingsOk(s.disk, s.asked) && Enabled(u, s, l)
    ensures BindingsOk(Next(u, s, l).disk, Next(u, s, l).asked)
  {
    hide DiskOk, CursorOk, RunSection, InputOk, Loaded, BindingsOk;
    if l.Commit? {
      CommitKeepsBindings(u.cfg, s.proc.before, s.proc.input, s.asked);
    }
  }

  /* ---- readiness ---- */

  predicate Vouched(u: Setup, c: Call) {
    c.applied && (u.gated ==> c.ready)
  }

  /** ConfigureInstance, and the readiness gate if there is one, answered success for the recorded op. */
  ghost predicate ReadyKept(u: Setup, d: Durable, calls: map<nat, Call>, id: string)
    requires id in d.machines
  {
    var key := OpKey(id, Configure);
    d.machines[id].state == Configured || d.machines[id].state == Draining ==>
      key in d.ops && d.ops[key].n in calls && Vouched(u, calls[d.ops[key].n])
  }

  ghost predicate AllReady(u: Setup, d: Durable, calls: map<nat, Call>) {
    forall id :: id in d.machines ==> ReadyKept(u, d, calls, id)
  }

  /** A Configure that answered success did so after its gate. */
  ghost predicate ConfiguresVouched(u: Setup, calls: map<nat, Call>) {
    forall n :: n in calls && calls[n].task.kind == Configure && Succeeded(calls[n]) ==> Vouched(u, calls[n])
  }

  predicate Succeeded(c: Call) {
    c.returned.Some? && c.returned.value.Ok?
  }

  ghost predicate ReadyOk(u: Setup, s: Sys) {
    && AllReady(u, s.disk, s.calls)
    && ConfiguresVouched(u, s.calls)
  }

  lemma CommitKeepsReady(u: Setup, s: Sys)
    requires StoreOk(u.cfg, s) && TasksOk(s) && CallsOk(s) && ReadyOk(u, s) && Enabled(u, s, Commit)
    ensures ReadyOk(u, Committed(s))
  {
    hide MemOk, CallsOk, Live, RunSection, AllReady, InputOk;
    SectionKeepsReady(u, s);
  }

  lemma SectionKeepsReady(u: Setup, s: Sys)
    requires StoreOk(u.cfg, s) && TasksOk(s) && CallsOk(s) && ReadyOk(u, s) && s.proc.Locked? && !s.proc.saved
    ensures AllReady(u, s.proc.sec.mem.d, s.calls)
  {
    hide MemOk, Live, AllReady, CallsOk;
    var b := s.proc.before;
    match s.proc.input
    case Rpc(r) => DispatchKeepsReady(u, b, r, s.calls);
    case Finish(t, res) => FinishKeepsReady(u, b, t, res, s);
    case Merge(list) => ReconcileKeepsReady(u, b, list, s.calls);
    case Seeding(list) => ReconcileKeepsReady(u, b, list, s.calls);
    case Recovering(after) => RecoverKeepsReady(u, b, after, s.calls);
  }

  lemma DispatchKeepsReady(u: Setup, b: Mem, r: Request, calls: map<nat, Call>)
    requires AllReady(u, b.d, calls)
    ensures AllReady(u, Dispatch(u.cfg, b, r).mem.d, calls)
  {
    hide Dispatch;
    DispatchShape(u.cfg, b, r);
    forall id | id in b.d.machines
      ensures ReadyKept(u, Dispatch(u.cfg, b, r).mem.d, calls, id)
    {
      assert ReadyKept(u, b.d, calls, id);
    }
  }

  lemma FinishKeepsReady(u: Setup, b: Mem, t: Task, res: BackendResult, s: Sys)
    requires ReadyOk(u, s) && b.d == s.disk && Live(b.d, s.tasks) && CallsOk(s) && !Launching(s, t.op.n)
    requires Completable(s, t, res)
    ensures AllReady(u, Complete(b, t, res).mem.d, s.calls)
  {
    assert Drives(b.d, t.op.n, t);
    forall id | id in b.d.machines
      ensures ReadyKept(u, Complete(b, t, res).mem.d, s.calls, id)
    {
      assert ReadyKept(u, b.d, s.calls, id);
    }
  }

  lemma RecoverKeepsReady(u: Setup, b: Mem, after: Mem, calls: map<nat, Call>)
    requires AllReady(u, b.d, calls) && RecoveredTo(b, after)
    ensures AllReady(u, after.d, calls)
  {
    hide InFlight;
    forall id | id in after.d.machines
      ensures ReadyKept(u, after.d, calls, id)
    {
      assert ReadyKept(u, b.d, calls, id);
    }
  }

  lemma ReconcileKeepsReady(u: Setup, b: Mem, list: seq<Instance>, calls: map<nat, Call>)
    requires AllReady(u, b.d, calls)
    ensures AllReady(u, Reconcile(u.cfg, b, list).d, calls)
  {
    KeepsOverlay(u.cfg, b, list);
    forall id | id in Reconcile(u.cfg, b, list).d.machines
      ensures ReadyKept(u, Reconcile(u.cfg, b, list).d, calls, id)
    {
      if id !in b.d.machines {
        NewcomersAreUnbound(u.cfg, b, list, id);
      } else {
        assert ReadyKept(u, b.d, calls, id);
      }
    }
  }

  lemma CallsKeepReady(u: Setup, s: Sys, calls: map<nat, Call>)
    requires ReadyOk(u, s)
    requires forall n :: n in s.calls && Vouched(u, s.calls[n]) ==> n in calls && Vouched(u, calls[n])
    requires ConfiguresVouched(u, calls)
    ensures ReadyOk(u, s.(calls := calls))
  {
    forall id | id in s.disk.machines
      ensures ReadyKept(u, s.disk, calls, id)
    {
      assert ReadyKept(u, s.disk, s.calls, id);
    }
  }

  lemma NextKeepsReady(u: Setup, s: Sys, l: Label)
    requires StoreOk(u.cfg, s) && TasksOk(s) && CallsOk(s) && ReadyOk(u, s) && Enabled(u, s, l)
    ensures ReadyOk(u, Next(u, s, l))
  {
    hide StoreOk, TasksOk, CallsOk, RunSection, Loaded;
    match l
    case Commit => CommitKeepsReady(u, s);
    case Release => ReleaseKeepsReady(u, s);
    case Applied(n) => CallsKeepReady(u, s, Next(u, s, l).calls);
    case Confirmed(n) => CallsKeepReady(u, s, Next(u, s, l).calls);
    case Returned(n, res) => CallsKeepReady(u, s, Next(u, s, l).calls);
    case _ => ReadyIgnores(u, s, Next(u, s, l));
  }

  lemma ReleaseKeepsReady(u: Setup, s: Sys)
    requires StoreOk(u.cfg, s) && TasksOk(s) && CallsOk(s) && ReadyOk(u, s) && Enabled(u, s, Release)
    ensures ReadyOk(u, Released(s))
  {
    hide DiskOk, CursorOk, RunSection, InputOk, Live, ReadyOk;
    SectionOps(u.cfg, s.proc.before, s.proc.input);
    if s.proc.sec.launched.Some? {
      assert Launching(s, s.proc.sec.launched.value.op.n);
      ReleaseKeepsReadyCalls(u, s);
    } else {
      ReadyIgnores(u, s, Released(s));
    }
  }

  lemma ReadyIgnores(u: Setup, s: Sys, t: Sys)
    requires ReadyOk(u, s) && t.disk == s.disk && t.calls == s.calls
    ensures ReadyOk(u, t)
  {
  }

  lemma ReleaseKeepsReadyCalls(u: Setup, s: Sys)
    requires s.proc.Locked? && s.proc.sec.launched.Some? && s.proc.sec.launched.value.op.n !in s.calls && ReadyOk(u, s)
    ensures ReadyOk(u, Released(s))
  {
    hide ReadyOk;
    var t := s.(calls := Released(s).calls);
    NewCallKeepsReady(u, s, s.proc.sec.launched.value);
    ReadyIgnores(u, t, Released(s));
  }

  lemma NewCallKeepsReady(u: Setup, s: Sys, t: Task)
    requires ReadyOk(u, s) && t.op.n !in s.calls
    ensures ReadyOk(u, s.(calls := s.calls[t.op.n := Call(t, false, false, None)]))
  {
    CallsKeepReady(u, s, s.calls[t.op.n := Call(t, false, false, None)]);
  }
}
