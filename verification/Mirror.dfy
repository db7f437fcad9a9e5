/** A client that lists once and then polls with the revision it was given. */
module Mirror {
  import opened Machines
  import opened Kit
  import opened Reconciliation
  import opened KitSystem
  import opened KitInvariants
  import Store

  datatype Client = Client(cursor: Option<nat>, mirror: map<string, Machine>)

  const NEWBORN := Client(None, map[])

  function Since(c: Client): Option<int> {
    if c.cursor.Some? then Some(c.cursor.value) else None
  }

  /** One poll: no state filter and no max_results. */
  function Poll(m: Mem, c: Client): Client {
    Client(Some(m.d.rev), c.mirror + Matching(m, Since(c), []))
  }

  /** Whatever order an uncut answer comes in, folding it in is one poll. */
  lemma AnswerIsPoll(m: Mem, c: Client, out: seq<Machine>, max: int)
    requires Answers(out, Matching(m, Since(c), []), max) && max <= 0 && Store.Keyed(m.d.machines)
    ensures Client(Some(m.d.rev), Store.Folded(c.mirror, out)) == Poll(m, c)
  {
    var all := Matching(m, Since(c), []);
    Store.FoldedContents(c.mirror, out, all);
    assert forall id :: id in all ==> all[id] in out;
    assert Store.Folded(c.mirror, out) == c.mirror + all;
  }

  /**
    A record the client has not been told about since its cursor is one it holds verbatim; a client
    that never listed owes nothing.
   */
  ghost predicate Synced(m: Mem, c: Client) {
    && c.mirror.Keys <= m.d.machines.Keys
    && (c.cursor.Some? ==>
          && c.cursor.value <= m.d.rev
          && forall id :: id in m.lastMod && id in m.d.machines && m.lastMod[id] <= c.cursor.value ==>
               id in c.mirror && c.mirror[id] == m.d.machines[id])
  }

  lemma PollIsExact(m: Mem, c: Client)
    requires Synced(m, c) && CursorOk(m)
    ensures Poll(m, c).mirror == m.d.machines && Synced(m, Poll(m, c))
  {
    var all := Matching(m, Since(c), []);
    forall id | id in m.d.machines
      ensures id in c.mirror + all && (c.mirror + all)[id] == m.d.machines[id]
    {
      assert id in m.lastMod;
      if id !in all {
        assert c.cursor.Some? && m.lastMod[id] <= c.cursor.value;
      }
    }
  }

  /** Every record a section leaves is either untouched or newer than any cursor handed out before. */
  ghost predicate Later(b: Mem, a: Mem) {
    && b.d.rev <= a.d.rev
    && b.d.machines.Keys <= a.d.machines.Keys
    && forall id :: id in a.d.machines && id in a.lastMod ==>
         || a.lastMod[id] > b.d.rev
         || (id in b.d.machines && id in b.lastMod && a.d.machines[id] == b.d.machines[id]
              && a.lastMod[id] == b.lastMod[id])
  }

  lemma LaterKeepsSynced(b: Mem, a: Mem, c: Client)
    requires Synced(b, c) && Later(b, a)
    ensures Synced(a, c)
  {
  }

  lemma PutIsLater(b: Mem, a: Mem, id: string, rec: Machine)
    requires Later(b, a)
    ensures Later(b, Put(a, id, rec))
  {
  }

  lemma {:induction false} ReconcileIsLater(cfg: Config, b: Mem, list: seq<Instance>)
    ensures Later(b, Reconcile(cfg, b, list))
  {
    if |list| > 0 {
      var init, e := Reconcile(cfg, b, list[..|list| - 1]), list[|list| - 1];
      ReconcileIsLater(cfg, b, list[..|list| - 1]);
      PutIsLater(b, init, e.id, if e.id in init.d.machines then Refresh(init.d.machines[e.id], e) else e.ToMachine());
    }
  }

  lemma SectionIsLater(cfg: Config, b: Mem, input: Input)
    requires InputOk(cfg, b, input) && CursorOk(b)
    ensures Later(b, RunSection(cfg, b, input).mem)
  {
    match input
    case Rpc(r) =>
      if Dispatch(cfg, b, r).launched.Some? {
        var fences := Dispatch(cfg, b, r).mem.d.fences;
        var fenced := b.(d := b.d.(fences := fences));
        PutIsLater(b, Minted(fenced, OpKey(r.id, r.kind), cfg.prefix), r.id, Entered(b.d.machines[r.id], r));
      }
    case Finish(t, res) =>
    case Merge(list) => ReconcileIsLater(cfg, b, list);
    case Seeding(list) => ReconcileIsLater(cfg, b, list);
    case Recovering(after) => RecoverIsLater(b, after);
  }

  lemma RecoverIsLater(b: Mem, after: Mem)
    requires RecoveredTo(b, after) && CursorOk(b)
    ensures Later(b, after)
  {
    assert forall id :: id in InFlight(b.d) <==> id in b.d.machines && IsTransitional(b.d.machines[id].state);
    hide InFlight;
  }

  /** A restart resets every modification revision to the loaded one: the mirror survives it. */
  lemma ReloadKeepsSynced(m: Mem, c: Client)
    requires Synced(m, c) && CursorOk(m)
    ensures Synced(Loaded(m.d), c)
  {
  }

  ghost predicate MirrorOk(s: Sys, c: Client) {
    match s.proc
    case Down => Synced(Loaded(s.disk), c)
    case Up(m) => Synced(m, c)
    case Locked(b, input, sec, saved) => Synced(b, c) && Synced(sec.mem, c)
  }

  lemma StepKeepsMirror(u: Setup, s: Sys, l: Label, c: Client)
    requires StoreOk(u.cfg, s) && MirrorOk(s, c) && Enabled(u, s, l)
    ensures MirrorOk(Next(u, s, l), c)
  {
    hide StoreOk, Synced, CursorOk, Loaded, RunSection;
    match l
    case Begin(input) => EnterKeepsMirror(u, s, s.proc.mem, input, c);
    case Boot(input) => EnterKeepsMirror(u, s, Loaded(s.disk), input, c);
    case Crash => CrashKeepsMirror(u, s, c);
    case _ =>
  }

  lemma EnterKeepsMirror(u: Setup, s: Sys, m: Mem, input: Input, c: Client)
    requires StoreOk(u.cfg, s) && Synced(m, c)
    requires s.proc == Up(m) || (s.proc.Down? && m == Loaded(s.disk))
    requires s.proc.Up? ==> Enabled(u, s, Begin(input))
    requires s.proc.Down? ==> Enabled(u, s, Boot(input))
    ensures MirrorOk(Entering(s, u.cfg, m, input), c)
  {
    hide MachinesOk, OpsOk, Synced, RunSection;
    LoadedIsOk(s.disk);
    SectionIsLater(u.cfg, m, input);
    LaterKeepsSynced(m, RunSection(u.cfg, m, input).mem, c);
  }

  lemma CrashKeepsMirror(u: Setup, s: Sys, c: Client)
    requires StoreOk(u.cfg, s) && MirrorOk(s, c) && !s.proc.Down?
    ensures MirrorOk(Crashed(s), c)
  {
    hide MachinesOk, OpsOk, InputOk, RunSection, Synced, Loaded;
    match s.proc
    case Up(m) => ReloadKeepsSynced(m, c);
    case Locked(b, input, sec, saved) =>
      SectionKeepsMem(u.cfg, b, input);
      ReloadKeepsSynced(if saved then sec.mem else b, c);
  }

  /** Kit steps interleaved with polls; a poll needs the process up and the lock free for reading. */
  datatype Event = Step(taken: Label) | Polled

  ghost predicate WatchedRun(u: Setup, states: seq<Sys>, clients: seq<Client>, events: seq<Event>) {
    && |states| == |clients| == |events| + 1
    && states[0] == START && clients[0] == NEWBORN
    && forall i :: 0 <= i < |events| ==> WatchedStep(u, states[i], clients[i], events[i], states[i + 1], clients[i + 1])
  }

  ghost predicate WatchedStep(u: Setup, s: Sys, c: Client, e: Event, s': Sys, c': Client) {
    match e
    case Step(l) => Enabled(u, s, l) && s' == Next(u, s, l) && c' == c
    case Polled => s.proc.Up? && s' == s && c' == Poll(s.proc.mem, c)
  }

  lemma {:induction false} WatchedInv(u: Setup, states: seq<Sys>, clients: seq<Client>, events: seq<Event>, i: nat)
    requires WatchedRun(u, states, clients, events) && i < |states|
    ensures StoreOk(u.cfg, states[i]) && MirrorOk(states[i], clients[i])
  {
    hide StoreOk, MirrorOk, Enabled, Next;
    if i == 0 {
      NewbornOk(u);
    } else {
      WatchedInv(u, states, clients, events, i - 1);
      assert WatchedStep(u, states[i - 1], clients[i - 1], events[i - 1], states[i], clients[i]);
      WatchedStepInv(u, states[i - 1], clients[i - 1], events[i - 1], states[i], clients[i]);
    }
  }

  lemma NewbornOk(u: Setup)
    ensures StoreOk(u.cfg, START)
    ensures MirrorOk(START, NEWBORN)
  {
  }

  lemma WatchedStepInv(u: Setup, s: Sys, c: Client, e: Event, s': Sys, c': Client)
    requires StoreOk(u.cfg, s) && MirrorOk(s, c) && WatchedStep(u, s, c, e, s', c')
    ensures StoreOk(u.cfg, s') && MirrorOk(s', c')
  {
    hide DiskOk, CursorOk, Synced, Poll, Enabled, Next;
    match e
    case Step(l) =>
      NextKeepsStore(u, s, l);
      StepKeepsMirror(u, s, l, c);
    case Polled => PollIsExact(s.proc.mem, c);
  }

  /**
    After every poll the client's mirror equals the server's inventory, across any interleaving of
    transitions, reconciles, crashes and restarts.
   */
  lemma MirrorIsExact(u: Setup, states: seq<Sys>, clients: seq<Client>, events: seq<Event>, i: nat)
    requires WatchedRun(u, states, clients, events) && i < |events| && events[i].Polled?
    ensures clients[i + 1].mirror == states[i + 1].disk.machines
  {
    WatchedInv(u, states, clients, events, i);
    assert WatchedStep(u, states[i], clients[i], events[i], states[i + 1], clients[i + 1]);
    PolledIsDisk(u, states[i], clients[i]);
  }

  lemma PolledIsDisk(u: Setup, s: Sys, c: Client)
    requires StoreOk(u.cfg, s) && MirrorOk(s, c) && s.proc.Up?
    ensures Poll(s.proc.mem, c).mirror == s.disk.machines
  {
    hide DiskOk, CursorOk, Synced, Poll;
    PollIsExact(s.proc.mem, c);
  }

  /**
    max_results cuts the list but not the revision, so a first listing yields the whole inventory
    exactly when the cap is off or not below the number of machines, and what it cut off is not
    offered again by polling with the revision it returned.
   */
  lemma CappedListing(m: Mem, out: seq<Machine>, max: int)
    requires CursorOk(m) && Store.Keyed(m.d.machines)
    requires Answers(out, Matching(m, None, []), max)
    ensures Store.Folded(map[], out) == m.d.machines <==> max <= 0 || max >= |m.d.machines|
    ensures Matching(m, Some(m.d.rev), []) == map[]
  {
    assert Matching(m, None, []) == m.d.machines;
    CappedMerge(out, m.d.machines, max);
  }

  lemma CappedMerge(out: seq<Machine>, all: map<string, Machine>, max: int)
    requires Answers(out, all, max) && Store.Keyed(all)
    ensures Store.Folded(map[], out) == all <==> max <= 0 || max >= |all|
  {
    MergeSize(out);
    if max <= 0 || max >= |all| {
      Store.FoldedContents(map[], out, all);
      assert Store.Folded(map[], out) == all;
    }
  }

  lemma {:induction false} MergeSize(out: seq<Machine>)
    ensures |Store.Folded(map[], out)| <= |out|
  {
    if |out| > 0 {
      var init := Store.Folded(map[], out[..|out| - 1]);
      MergeSize(out[..|out| - 1]);
      assert Store.Folded(map[], out).Keys == init.Keys + {out[|out| - 1].id};
    }
  }
}
