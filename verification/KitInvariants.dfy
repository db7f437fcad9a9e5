/** What every step of KitSystem keeps. */
module KitInvariants {
  import opened Machines
  import opened Kit
  import opened Reconciliation
  import opened KitSystem

  /* ---- the process agrees with its store ---- */

  ghost predicate InputOk(cfg: Config, b: Mem, input: Input) {
    match input
    case Seeding(list) => IsFresh(b.d) && b == Loaded(b.d) && Seedable(cfg, list)
    case Recovering(after) => b == Loaded(b.d) && RecoveredTo(b, after)
    case _ => true
  }

  ghost predicate ProcOk(cfg: Config, s: Sys) {
    match s.proc
    case Down => true
    case Up(m) => m.d == s.disk && CursorOk(m)
    case Locked(b, input, sec, saved) =>
      && MemOk(b) && InputOk(cfg, b, input)
      && sec == RunSection(cfg, b, input)
      && s.disk == (if saved then sec.mem.d else b.d)
      && (saved ==> sec.persist)
  }

  ghost predicate StoreOk(cfg: Config, s: Sys) {
    DiskOk(s.disk) && ProcOk(cfg, s)
  }

  lemma SectionKeepsMem(cfg: Config, b: Mem, input: Input)
    requires MemOk(b) && InputOk(cfg, b, input)
    ensures MemOk(RunSection(cfg, b, input).mem)
  {
    match input
    case Rpc(r) => DispatchKeepsMem(cfg, b, r);
    case Finish(t, res) => CompleteKeepsMem(b, t, res);
    case Merge(list) => ReconcileKeepsMem(cfg, b, list);
    case Seeding(list) => ReconcileKeepsMem(cfg, b, list);
    case Recovering(after) => RecoverKeepsMem(b, after);
  }

  /** A section that does not save has changed nothing. */
  lemma UnsavedIsUnchanged(cfg: Config, b: Mem, input: Input)
    requires CursorOk(b) && InputOk(cfg, b, input) && !RunSection(cfg, b, input).persist
    ensures var s := RunSection(cfg, b, input); s.mem == b && s.token == None && s.launched == None
  {
    match input
    case Rpc(r) =>
    case Finish(t, res) =>
    case Merge(list) => KeepsOverlay(cfg, b, list);
    case Seeding(list) =>
    case Recovering(after) => RecoverNothing(b, after);
  }

  lemma LoadedIsOk(d: Durable)
    requires DiskOk(d)
    ensures MemOk(Loaded(d)) && Loaded(d).d == d
  {
    hide DiskOk;
  }

  lemma NextKeepsStore(u: Setup, s: Sys, l: Label)
    requires StoreOk(u.cfg, s) && Enabled(u, s, l)
    ensures StoreOk(u.cfg, Next(u, s, l))
  {
    hide DiskOk, CursorOk, RunSection, InputOk, Loaded, Seedable, RecoveredTo, IsFresh;
    match l
    case Begin(input) =>
      InputIsOk(u, s, s.proc.mem, l, input);
      EnterKeepsStore(u, s, s.proc.mem, input);
    case Boot(input) =>
      LoadedIsOk(s.disk);
      InputIsOk(u, s, Loaded(s.disk), l, input);
      EnterKeepsStore(u, s, Loaded(s.disk), input);
    case Commit => CommitKeepsStore(u, s);
    case Release => ReleaseKeepsStore(u, s);
    case _ =>
  }

  lemma InputIsOk(u: Setup, s: Sys, m: Mem, l: Label, input: Input)
    requires Enabled(u, s, l) && ((l == Begin(input)) || (l == Boot(input) && m == Loaded(s.disk)))
    ensures InputOk(u.cfg, m, input)
  {
    hide Seedable, RecoveredTo;
  }

  lemma EnterKeepsStore(u: Setup, s: Sys, m: Mem, input: Input)
    requires MemOk(m) && m.d == s.disk && InputOk(u.cfg, m, input)
    ensures StoreOk(u.cfg, Entering(s, u.cfg, m, input))
  {
    hide DiskOk, CursorOk, RunSection, InputOk;
  }

  lemma CommitKeepsStore(u: Setup, s: Sys)
    requires StoreOk(u.cfg, s) && Enabled(u, s, Commit)
    ensures StoreOk(u.cfg, Committed(s))
  {
    hide DiskOk, CursorOk, RunSection, InputOk;
    SectionKeepsMem(u.cfg, s.proc.before, s.proc.input);
  }

  lemma ReleaseKeepsStore(u: Setup, s: Sys)
    requires StoreOk(u.cfg, s) && Enabled(u, s, Release)
    ensures StoreOk(u.cfg, Released(s)) && s.disk == s.proc.sec.mem.d
  {
    hide DiskOk, CursorOk, RunSection, Loaded, InputOk;
    SectionKeepsMem(u.cfg, s.proc.before, s.proc.input);
    if !s.proc.sec.persist {
      UnsavedIsUnchanged(u.cfg, s.proc.before, s.proc.input);
    }
  }

  /* ---- transitional states and outstanding goroutines match one to one ---- */

  /** The goroutine with op number n drives the machine its task names, and nothing has touched that record since. */
  ghost predicate Drives(d: Durable, n: nat, t: Task) {
    var id := t.machine.id;
    && t.op.n == n
    && id in d.machines && d.machines[id].state == Transitional(t.kind) && SameOverlay(d.machines[id], t.machine)
    && OpKey(id, t.kind) in d.ops && d.ops[OpKey(id, t.kind)] == t.op
  }

  /** Every transitional machine has the goroutine of its recorded op, and every goroutine such a machine. */
  ghost predicate Live(d: Durable, tasks: map<nat, Task>) {
    && (forall n :: n in tasks ==> Drives(d, n, tasks[n]))
    && (forall id :: id in d.machines && IsTransitional(d.machines[id].state) ==> Driven(d, tasks, id))
  }

  ghost predicate Driven(d: Durable, tasks: map<nat, Task>, id: string)
    requires id in d.machines && IsTransitional(d.machines[id].state)
  {
    var key := OpKey(id, KindOf(d.machines[id].state));
    key in d.ops && d.ops[key].n in tasks && tasks[d.ops[key].n].machine.id == id
  }

  ghost predicate TasksOk(s: Sys) {
    if s.proc.Down? || (s.proc.Locked? && s.proc.input.Boots()) then s.tasks == map[]
    else Live(s.disk, s.tasks) && (s.proc.Locked? ==> SectionTasksOk(s))
  }

  /** Before the save a completion still owns its goroutine; after it the bookkeeping is done. */
  ghost predicate SectionTasksOk(s: Sys)
    requires s.proc.Locked?
  {
    if s.proc.saved then s.tasks == TasksAfter(s.tasks, s.proc.input, s.proc.sec.launched)
    else s.proc.input.Finish? ==> Completable(s, s.proc.input.task, s.proc.input.res)
  }

  lemma OneTaskPerMachine(d: Durable, tasks: map<nat, Task>, m: nat, n: nat)
    requires Live(d, tasks) && m in tasks && n in tasks && tasks[m].machine.id == tasks[n].machine.id
    ensures m == n
  {
    assert Drives(d, m, tasks[m]) && Drives(d, n, tasks[n]);
  }

  lemma LiveAfterAccept(cfg: Config, m: Mem, r: Request, tasks: map<nat, Task>)
    requires MemOk(m) && Live(m.d, tasks)
    requires r.id in m.d.machines && CanStart(m.d.machines[r.id].state, r.kind)
    ensures var after := Accepted(cfg, m, r).d;
            var op := after.ops[OpKey(r.id, r.kind)];
            Live(after, tasks[op.n := Task(op, r.kind, after.machines[r.id])])
  {
    hide MemOk, Drives, Driven, Accepted, OpsMinted;
    NewTaskDrives(cfg, m, r, tasks);
    var after := Accepted(cfg, m, r).d;
    var op := after.ops[OpKey(r.id, r.kind)];
    var t := Task(op, r.kind, after.machines[r.id]);
    forall n | n in tasks
      ensures Drives(after, n, tasks[n]) && n != op.n
    {
      DrivesAfterAccept(cfg, m, r, n, tasks[n]);
    }
    forall id | id in after.machines && IsTransitional(after.machines[id].state) && id != r.id
      ensures Driven(after, tasks[op.n := t], id)
    {
      DrivenAfterAccept(cfg, m, r, tasks, t, id);
    }
  }

  lemma DrivenAfterAccept(cfg: Config, m: Mem, r: Request, tasks: map<nat, Task>, t: Task, id: string)
    requires r.id in m.d.machines && Live(m.d, tasks) && t.op.n !in tasks
    requires var after := Accepted(cfg, m, r).d;
             id in after.machines && IsTransitional(after.machines[id].state) && id != r.id
    ensures Driven(Accepted(cfg, m, r).d, tasks[t.op.n := t], id)
  {
    hide Drives;
    assert Driven(m.d, tasks, id);
  }

  lemma NewTaskDrives(cfg: Config, m: Mem, r: Request, tasks: map<nat, Task>)
    requires MemOk(m) && r.id in m.d.machines
    ensures OpKey(r.id, r.kind) in Accepted(cfg, m, r).d.ops && r.id in Accepted(cfg, m, r).d.machines
    ensures var after := Accepted(cfg, m, r).d;
            var op := after.ops[OpKey(r.id, r.kind)];
            var t := Task(op, r.kind, after.machines[r.id]);
            && Drives(after, op.n, t) && Driven(after, tasks[op.n := t], r.id)
            && op.n == m.d.nextOp + 1 && OpsMinted(m.d)
  {
    hide OpsDistinct, OpsMinted, OpsCover, CursorOk, InShape;
    assert m.d.machines[r.id].id == r.id;
  }

  lemma DrivesAfterAccept(cfg: Config, m: Mem, r: Request, n: nat, t: Task)
    requires OpsMinted(m.d) && Drives(m.d, n, t)
    requires r.id in m.d.machines && CanStart(m.d.machines[r.id].state, r.kind)
    ensures Drives(Accepted(cfg, m, r).d, n, t) && n <= m.d.nextOp
  {
    assert t.machine.id != r.id;
  }

  lemma LiveAfterComplete(m: Mem, t: Task, res: BackendResult, tasks: map<nat, Task>)
    requires Live(m.d, tasks) && t.op.n in tasks && tasks[t.op.n] == t
    ensures Complete(m, t, res).persist
    ensures Live(Complete(m, t, res).mem.d, tasks - {t.op.n})
  {
    var id := t.machine.id;
    assert Drives(m.d, t.op.n, t);
    LiveAfterSettle(m, t, Settled(m.d.machines[id], t.kind, Judge(t.kind, res)), tasks);
  }

  /** Any record at rest may take the place of a driven one once its goroutine is gone. */
  lemma LiveAfterSettle(m: Mem, t: Task, rec: Machine, tasks: map<nat, Task>)
    requires Live(m.d, tasks) && t.op.n in tasks && tasks[t.op.n] == t && !IsTransitional(rec.state)
    ensures Live(Put(m, t.machine.id, rec).d, tasks - {t.op.n})
  {
    var after := Put(m, t.machine.id, rec).d;
    forall n | n in tasks && n != t.op.n
      ensures Drives(after, n, tasks[n])
    {
      assert Drives(m.d, n, tasks[n]);
      if tasks[n].machine.id == t.machine.id {
        OneTaskPerMachine(m.d, tasks, n, t.op.n);
      }
    }
    hide Drives;
    forall id | id in after.machines && IsTransitional(after.machines[id].state)
      ensures Driven(after, tasks - {t.op.n}, id)
    {
      assert id != t.machine.id;
      assert Driven(m.d, tasks, id);
    }
  }

  /** Records outside a change set keep their state and overlay; new ones start at rest. */
  ghost predicate Undisturbed(d: Durable, after: Durable) {
    && after.ops == d.ops
    && (forall id :: id in d.machines ==> id in after.machines && SameOverlay(after.machines[id], d.machines[id]))
    && (forall id :: id in after.machines && id !in d.machines ==>
          after.machines[id].state == Speculative || after.machines[id].state == Idle)
  }

  lemma LiveUndisturbed(d: Durable, after: Durable, tasks: map<nat, Task>)
    requires Live(d, tasks) && Undisturbed(d, after)
    ensures Live(after, tasks)
  {
    forall n | n in tasks
      ensures Drives(after, n, tasks[n])
    {
      assert Drives(d, n, tasks[n]);
    }
    forall id | id in after.machines && IsTransitional(after.machines[id].state)
      ensures Driven(after, tasks, id)
    {
      assert id in d.machines;
      assert Driven(d, tasks, id);
    }
  }

  lemma {:induction false} ReconcileUndisturbs(cfg: Config, m: Mem, list: seq<Instance>)
    ensures Undisturbed(m.d, Reconcile(cfg, m, list).d)
  {
    if |list| > 0 {
      var init := Reconcile(cfg, m, list[..|list| - 1]);
      ReconcileUndisturbs(cfg, m, list[..|list| - 1]);
      KeepsOverlay(cfg, m, list);
      assert ReconcileOne(cfg, init, list[|list| - 1]) == Reconcile(cfg, m, list);
    }
  }

  lemma CommitKeepsTasks(u: Setup, s: Sys)
    requires StoreOk(u.cfg, s) && TasksOk(s) && Enabled(u, s, Commit)
    ensures TasksOk(Committed(s))
  {
    hide Live, MemOk, DiskOk, CursorOk, RunSection, InputOk;
    if !s.proc.input.Boots() {
      SectionKeepsLive(u.cfg, s.proc.before, s.proc.input, s.tasks);
    } else {
      BootLaunchesNothing(u.cfg, s.proc.before, s.proc.input);
    }
  }

  lemma BootLaunchesNothing(cfg: Config, b: Mem, input: Input)
    ensures input.Boots() ==> RunSection(cfg, b, input).launched == None
  {
  }

  lemma SectionKeepsLive(cfg: Config, b: Mem, input: Input, tasks: map<nat, Task>)
    requires MemOk(b) && Live(b.d, tasks) && !input.Boots()
    requires input.Finish? ==> input.task.op.n in tasks && tasks[input.task.op.n] == input.task
    ensures var s := RunSection(cfg, b, input); Live(s.mem.d, TasksAfter(tasks, input, s.launched))
  {
    hide Live, MemOk;
    match input
    case Rpc(r) => DispatchKeepsLive(cfg, b, r, tasks);
    case Finish(t, res) => LiveAfterComplete(b, t, res, tasks);
    case Merge(list) =>
      ReconcileUndisturbs(cfg, b, list);
      LiveUndisturbed(b.d, Reconcile(cfg, b, list).d, tasks);
  }

  lemma DispatchKeepsLive(cfg: Config, m: Mem, r: Request, tasks: map<nat, Task>)
    requires MemOk(m) && Live(m.d, tasks)
    ensures var s := Dispatch(cfg, m, r); Live(s.mem.d, TasksAfter(tasks, Rpc(r), s.launched))
  {
    hide MemOk, Accepted;
    match CheckFence(m.d.fences, r.id, r.token)
    case Stale(_) =>
    case Passed(fences, _) =>
      FencesKeepMem(m, fences);
      var fenced := m.(d := m.d.(fences := fences));
      FencesKeepLive(m.d, fences, tasks);
      hide Live;
      if r.id in m.d.machines && CanStart(m.d.machines[r.id].state, r.kind) {
        LiveAfterAccept(cfg, fenced, r, tasks);
      }
  }

  lemma FencesKeepLive(d: Durable, fences: map<FenceKey, FenceMark>, tasks: map<nat, Task>)
    requires Live(d, tasks)
    ensures Live(d.(fences := fences), tasks)
  {
    LiveUndisturbed(d, d.(fences := fences), tasks);
  }

  lemma BootIsIdle(cfg: Config, b: Mem, input: Input)
    requires MemOk(b) && InputOk(cfg, b, input) && input.Boots()
    ensures Live(RunSection(cfg, b, input).mem.d, map[])
  {
    match input
    case Seeding(list) =>
      ReconcileUndisturbs(cfg, b, list);
      LiveUndisturbed(b.d, Reconcile(cfg, b, list).d, map[]);
    case Recovering(after) =>
      RecoverKeepsMem(b, after);
      forall id | id in after.d.machines
        ensures !IsTransitional(after.d.machines[id].state)
      {
        assert id !in InFlight(after.d);
      }
  }

  lemma NextKeepsTasks(u: Setup, s: Sys, l: Label)
    requires StoreOk(u.cfg, s) && TasksOk(s) && Enabled(u, s, l)
    ensures TasksOk(Next(u, s, l))
  {
    hide Live, StoreOk, RunSection, Loaded;
    match l
    case Commit => CommitKeepsTasks(u, s);
    case Release => ReleaseKeepsTasks(u, s);
    case _ =>
  }

  lemma ReleaseKeepsTasks(u: Setup, s: Sys)
    requires StoreOk(u.cfg, s) && TasksOk(s) && Enabled(u, s, Release)
    ensures TasksOk(Released(s)) && Released(s).tasks == s.tasks
  {
    hide DiskOk, CursorOk, Live;
    var b, input := s.proc.before, s.proc.input;
    ReleaseKeepsStore(u, s);
    if !s.proc.sec.persist {
      UnsavedIsUnchanged(u.cfg, b, input);
    }
    if input.Boots() {
      BootIsIdle(u.cfg, b, input);
    } else if input.Finish? && !s.proc.saved {
      LiveAfterComplete(b, input.task, input.res, s.tasks);
    }
  }
}
