/** The kit's promises over whole runs, crashes and restarts included. */
module Guarantees {
  import opened Machines
  import opened Kit
  import opened Reconciliation
  import opened Records
  import opened KitSystem
  import opened KitInvariants
  import opened KitHistory

  ghost predicate KitInv(u: Setup, s: Sys) {
    && StoreOk(u.cfg, s) && TasksOk(s) && CallsOk(s) && HandedOk(s)
    && TokensOk(s.tokens, s.disk.fences) && BindingsOk(s.disk, s.asked) && ReadyOk(u, s)
  }

  lemma StartInv(u: Setup)
    ensures KitInv(u, START)
  {
  }

  lemma NextInv(u: Setup, s: Sys, l: Label)
    requires KitInv(u, s) && Enabled(u, s, l)
    ensures KitInv(u, Next(u, s, l))
  {
    hide StoreOk, TasksOk, CallsOk, HandedOk, TokensOk, BindingsOk, ReadyOk, Enabled, Next;
    NextKeepsStore(u, s, l);
    NextKeepsTasks(u, s, l);
    NextKeepsCalls(u, s, l);
    NextKeepsTokens(u, s, l);
    NextKeepsBindings(u, s, l);
    NextKeepsReady(u, s, l);
  }

  lemma {:induction false} RunInv(u: Setup, states: seq<Sys>, labels: seq<Label>, i: nat)
    requires Run(u, states, labels) && i < |states|
    ensures KitInv(u, states[i])
  {
    hide KitInv, Enabled, Next;
    if i == 0 {
      StartInv(u);
    } else {
      RunInv(u, states, labels, i - 1);
      NextInv(u, states[i - 1], labels[i - 1]);
    }
  }

  /* ---- goroutines and transitional states ---- */

  /**
    While the process serves, a machine is in the transitional state of kind k exactly when one
    goroutine is outstanding for it, of kind k and with the op id recorded for (id, k).
   */
  lemma TransitionsMatchGoroutines(u: Setup, states: seq<Sys>, labels: seq<Label>, i: nat, id: string, k: Kind)
    requires Run(u, states, labels) && i < |states| && states[i].proc.Up? && id in states[i].disk.machines
    ensures var s := states[i];
            s.disk.machines[id].state == Transitional(k) <==>
              OpKey(id, k) in s.disk.ops
              && (var op := s.disk.ops[OpKey(id, k)];
                  && op.n in s.tasks && s.tasks[op.n].op == op && s.tasks[op.n].kind == k
                  && s.tasks[op.n].machine.id == id
                  && forall n :: n in s.tasks && s.tasks[n].machine.id == id ==> n == op.n)
  {
    RunInv(u, states, labels, i);
    TransitionMatch(states[i], id, k);
  }

  lemma TransitionMatch(s: Sys, id: string, k: Kind)
    requires Live(s.disk, s.tasks) && id in s.disk.machines
    ensures s.disk.machines[id].state == Transitional(k) <==>
              OpKey(id, k) in s.disk.ops
              && (var op := s.disk.ops[OpKey(id, k)];
                  && op.n in s.tasks && s.tasks[op.n].op == op && s.tasks[op.n].kind == k
                  && s.tasks[op.n].machine.id == id
                  && forall n :: n in s.tasks && s.tasks[n].machine.id == id ==> n == op.n)
  {
    if s.disk.machines[id].state == Transitional(k) {
      TransitionHasTask(s, id, k);
    } else if OpKey(id, k) in s.disk.ops && s.disk.ops[OpKey(id, k)].n in s.tasks {
      hide Driven;
      var n := s.disk.ops[OpKey(id, k)].n;
      assert Drives(s.disk, n, s.tasks[n]);
    }
  }

  lemma TransitionHasTask(s: Sys, id: string, k: Kind)
    requires Live(s.disk, s.tasks) && id in s.disk.machines && s.disk.machines[id].state == Transitional(k)
    ensures OpKey(id, k) in s.disk.ops
    ensures var op := s.disk.ops[OpKey(id, k)];
            && op.n in s.tasks && s.tasks[op.n].op == op && s.tasks[op.n].kind == k && s.tasks[op.n].machine.id == id
            && forall n :: n in s.tasks && s.tasks[n].machine.id == id ==> n == op.n
  {
    hide SameOverlay;
    assert Driven(s.disk, s.tasks, id);
    var n := s.disk.ops[OpKey(id, k)].n;
    assert Drives(s.disk, n, s.tasks[n]);
    forall j | j in s.tasks && s.tasks[j].machine.id == id
      ensures j == n
    {
      OneTaskPerMachine(s.disk, s.tasks, j, n);
    }
  }

  /**
    A completion never finds its machine moved on, and it writes that machine alone: the stale
    branch of runTransition is unreachable, and neither a timeout nor a late result reaches a
    record other than the one its own op put in flight.
   */
  lemma CompletionsAreNeverStale(u: Setup, states: seq<Sys>, labels: seq<Label>, i: nat)
    requires Run(u, states, labels) && i < |labels| && labels[i].Begin? && labels[i].input.Finish?
    ensures var t, d, sec := labels[i].input.task, states[i].disk, states[i + 1].proc.sec;
            && sec.persist
            && t.machine.id in d.machines && d.machines[t.machine.id].state == Transitional(t.kind)
            && OpKey(t.machine.id, t.kind) in d.ops && d.ops[OpKey(t.machine.id, t.kind)] == t.op
            && sec.mem.d.machines.Keys == d.machines.Keys
            && forall id :: id in d.machines && id != t.machine.id ==> sec.mem.d.machines[id] == d.machines[id]
  {
    hide KitInv;
    RunInv(u, states, labels, i);
    CompletionFits(u, states[i], labels[i].input.task, labels[i].input.res);
  }

  lemma CompletionFits(u: Setup, s: Sys, t: Task, res: BackendResult)
    requires KitInv(u, s) && Enabled(u, s, Begin(Finish(t, res)))
    ensures var d, sec := s.disk, Entering(s, u.cfg, s.proc.mem, Finish(t, res)).proc.sec;
            && sec.persist
            && t.machine.id in d.machines && d.machines[t.machine.id].state == Transitional(t.kind)
            && OpKey(t.machine.id, t.kind) in d.ops && d.ops[OpKey(t.machine.id, t.kind)] == t.op
            && sec.mem.d.machines.Keys == d.machines.Keys
            && forall id :: id in d.machines && id != t.machine.id ==> sec.mem.d.machines[id] == d.machines[id]
  {
    hide DiskOk, CursorOk, CallsOk, HandedOk, TokensOk, BindingsOk, ReadyOk, Driven;
    assert Drives(s.disk, t.op.n, t);
  }

  /* ---- fencing ---- */

  /** Over any run the tokens durably accepted for one shard and machine strictly increase. */
  lemma FencingIsMonotone(u: Setup, states: seq<Sys>, labels: seq<Label>, i: nat, a: nat, b: nat)
    requires Run(u, states, labels) && i < |states|
    requires a < b < |states[i].tokens| && states[i].tokens[a].key == states[i].tokens[b].key
    ensures Newer(states[i].tokens[a].mark, states[i].tokens[b].mark)
    ensures states[i].tokens[b].key in states[i].disk.fences
    ensures AtMost(states[i].tokens[b].mark, states[i].disk.fences[states[i].tokens[b].key])
  {
    RunInv(u, states, labels, i);
  }

  /** Lexicographic order is a strict total order, so "strictly increasing" rules out any replay. */
  lemma NewerIsStrictTotalOrder(a: FenceMark, b: FenceMark, c: FenceMark)
    ensures !Newer(a, a)
    ensures Newer(a, b) && Newer(b, c) ==> Newer(a, c)
    ensures a == b || Newer(a, b) || Newer(b, a)
  {
  }

  /**
    A fenced request changes nothing and its answer is a function of the token and that one
    mark: two servers that agree on the mark agree on the rejection, whatever machines they hold.
   */
  lemma FencedIsBlind(cfg: Config, m: Mem, other: Mem, r: Request)
    requires r.id != "" && (r.kind == Delete ==> cfg.canDelete)
    requires var key := FenceKey(r.token.shard, r.id);
             && (key in m.d.fences <==> key in other.d.fences)
             && (key in m.d.fences ==> m.d.fences[key] == other.d.fences[key])
    ensures var s, o := Dispatch(cfg, m, r), Dispatch(cfg, other, r);
            && (s.reply.value.Fenced? <==> o.reply.value.Fenced?)
            && (s.reply.value.Fenced? ==> s.reply == o.reply && s.mem == m && !s.persist && s.launched == None)
  {
  }

  datatype Arrival = Arrival(id: string, token: Fence)

  /** Feed a list of calls through the fence, one after another. */
  ghost predicate AllPass(fences: map<FenceKey, FenceMark>, list: seq<Arrival>)
    decreases |list|
  {
    |list| == 0 ||
    match CheckFence(fences, list[0].id, list[0].token)
    case Stale(_) => false
    case Passed(next, _) => AllPass(next, list[1..])
  }

  function KeyOf(a: Arrival): FenceKey {
    FenceKey(a.token.shard, a.id)
  }

  predicate SameFence(a: Arrival, b: Arrival) {
    !a.token.Zero() && !b.token.Zero() && KeyOf(a) == KeyOf(b)
  }

  /** Per shard and machine, and only there, the tokens are newer than the mark and than each other. */
  ghost predicate InOrder(fences: map<FenceKey, FenceMark>, list: seq<Arrival>) {
    && (forall i :: 0 <= i < |list| && !list[i].token.Zero() && KeyOf(list[i]) in fences ==>
          Newer(fences[KeyOf(list[i])], list[i].token.Mark()))
    && (forall i, j :: 0 <= i < j < |list| && SameFence(list[i], list[j]) ==>
          Newer(list[i].token.Mark(), list[j].token.Mark()))
  }

  /**
    A whole stream of calls passes the fence exactly when the tokens of each (shard, machine)
    arrive in increasing order; how different machines and shards interleave does not matter.
   */
  lemma {:induction false} InOrderIffAllPass(fences: map<FenceKey, FenceMark>, list: seq<Arrival>)
    ensures AllPass(fences, list) <==> InOrder(fences, list)
    decreases |list|
  {
    if |list| > 0 {
      var head, tail := list[0], list[1..];
      match CheckFence(fences, head.id, head.token)
      case Stale(_) =>
      case Passed(next, token) =>
        InOrderIffAllPass(next, tail);
        assert forall i :: 0 <= i < |tail| ==> tail[i] == list[i + 1];
        if InOrder(next, tail) {
          HeadThenTail(fences, next, list);
        }
        if InOrder(fences, list) {
          assert InOrder(next, tail);
        }
    }
  }

  lemma HeadThenTail(fences: map<FenceKey, FenceMark>, next: map<FenceKey, FenceMark>, list: seq<Arrival>)
    requires |list| > 0 && InOrder(next, list[1..])
    requires CheckFence(fences, list[0].id, list[0].token).Passed?
    requires next == CheckFence(fences, list[0].id, list[0].token).fences
    ensures InOrder(fences, list)
  {
    var tail := list[1..];
    forall i | 0 <= i < |list| && !list[i].token.Zero() && KeyOf(list[i]) in fences
      ensures Newer(fences[KeyOf(list[i])], list[i].token.Mark())
    {
      if i > 0 {
        assert list[i] == tail[i - 1];
      }
    }
    forall i, j | 0 <= i < j < |list| && SameFence(list[i], list[j])
      ensures Newer(list[i].token.Mark(), list[j].token.Mark())
    {
      assert list[j] == tail[j - 1];
      if i > 0 {
        assert list[i] == tail[i - 1];
      }
    }
  }

  /** The request reaches the fence with a token to show. */
  predicate Shows(cfg: Config, r: Request) {
    r.id != "" && (r.kind == Delete ==> cfg.canDelete) && !r.token.Zero()
  }

  predicate Requests(l: Label) {
    l.Begin? && l.input.Rpc?
  }

  predicate AnsweredFenced(s: Sys) {
    s.proc.Locked? && s.proc.sec.reply.Some? && s.proc.sec.reply.value.Fenced?
  }

  /** A token durably accepted before, for the same shard and machine, is not older than this one. */
  predicate Overtaken(tokens: seq<Token>, r: Request) {
    exists k :: 0 <= k < |tokens| && Outdates(tokens[k], r)
  }

  predicate Outdates(t: Token, r: Request) {
    t.key == FenceKey(r.token.shard, r.id) && !Newer(t.mark, r.token.Mark())
  }

  lemma FencedExactlyWhen(u: Setup, s: Sys, l: Label)
    requires KitInv(u, s) && Enabled(u, s, l) && Requests(l)
    ensures AnsweredFenced(Next(u, s, l)) <==> Shows(u.cfg, l.input.request) && Overtaken(s.tokens, l.input.request)
  {
    hide TasksOk, CallsOk, HandedOk, BindingsOk, ReadyOk, DiskOk, CursorOk, Newer;
    var r := l.input.request;
    var key := FenceKey(r.token.shard, r.id);
    if key in s.disk.fences {
      assert Covered(s.tokens, key, s.disk.fences[key]);
      forall k | 0 <= k < |s.tokens| && Outdates(s.tokens[k], r)
        ensures !Newer(s.disk.fences[key], r.token.Mark())
      {
        NewerIsStrictTotalOrder(s.tokens[k].mark, s.disk.fences[key], r.token.Mark());
      }
    }
  }

  predicate SavesToken(s: Sys, l: Label, t: Token) {
    l.Commit? && s.proc.Locked? && s.proc.sec.token == Some(t)
  }

  lemma {:induction false} TokensAreSaved(u: Setup, states: seq<Sys>, labels: seq<Label>, j: nat, t: Token)
    requires Run(u, states, labels) && j < |states|
    ensures t in states[j].tokens <==> exists k :: 0 <= k < j && SavesToken(states[k], labels[k], t)
  {
    hide Enabled;
    if j > 0 {
      TokensAreSaved(u, states, labels, j - 1, t);
      OneTokenMore(u, states[j - 1], labels[j - 1], t);
    }
  }

  lemma OneTokenMore(u: Setup, s: Sys, l: Label, t: Token)
    requires Enabled(u, s, l)
    ensures t in Next(u, s, l).tokens <==> t in s.tokens || SavesToken(s, l, t)
  {
    hide RunSection, Loaded;
  }

  /**
    In a whole run no request is ever fenced exactly when every token shown is newer than each one
    saved before it for the same shard and machine. Requests to other machines or from other shards,
    completions, reconciles, crashes and restarts in between make no difference.
   */
  lemma NoneFencedExactlyWhen(u: Setup, states: seq<Sys>, labels: seq<Label>)
    requires Run(u, states, labels)
    ensures (forall j :: 0 <= j < |labels| && Requests(labels[j]) ==> !AnsweredFenced(states[j + 1])) <==>
              forall j, k, t :: 0 <= k < j < |labels| && Requests(labels[j]) && SavesToken(states[k], labels[k], t) ==>
                Shows(u.cfg, labels[j].input.request) ==> !Outdates(t, labels[j].input.request)
  {
    hide KitInv, Enabled, Next, Shows, Outdates, SavesToken, AnsweredFenced;
    forall j | 0 <= j < |labels| && Requests(labels[j])
      ensures AnsweredFenced(states[j + 1]) <==>
                Shows(u.cfg, labels[j].input.request)
                && exists k, t :: 0 <= k < j && SavesToken(states[k], labels[k], t)
                                  && Outdates(t, labels[j].input.request)
    {
      FencedAtExactlyWhen(u, states, labels, j);
    }
  }

  lemma FencedAtExactlyWhen(u: Setup, states: seq<Sys>, labels: seq<Label>, j: nat)
    requires Run(u, states, labels) && j < |labels| && Requests(labels[j])
    ensures AnsweredFenced(states[j + 1]) <==>
              Shows(u.cfg, labels[j].input.request)
              && exists k, t :: 0 <= k < j && SavesToken(states[k], labels[k], t)
                                && Outdates(t, labels[j].input.request)
  {
    hide KitInv, Enabled, Next, Shows, Outdates, SavesToken, AnsweredFenced;
    var r := labels[j].input.request;
    RunInv(u, states, labels, j);
    FencedExactlyWhen(u, states[j], labels[j]);
    forall t
      ensures t in states[j].tokens <==> exists k :: 0 <= k < j && SavesToken(states[k], labels[k], t)
    {
      TokensAreSaved(u, states, labels, j, t);
    }
    if Overtaken(states[j].tokens, r) {
      var i :| 0 <= i < |states[j].tokens| && Outdates(states[j].tokens[i], r);
      var t := states[j].tokens[i];
      assert t in states[j].tokens;
      var k :| 0 <= k < j && SavesToken(states[k], labels[k], t);
      assert SavesToken(states[k], labels[k], t) && Outdates(t, r);
    }
    if k, t :| 0 <= k < j && SavesToken(states[k], labels[k], t) && Outdates(t, r) {
      assert t in states[j].tokens;
      var i :| 0 <= i < |states[j].tokens| && states[j].tokens[i] == t;
      assert Overtaken(states[j].tokens, r);
    }
  }

  /* ---- operation ids ---- */

  /** Every op id given to the backend, over all restarts, is given once: their texts are all different. */
  lemma HandedOnce(u: Setup, states: seq<Sys>, labels: seq<Label>, i: nat, a: nat, b: nat)
    requires Run(u, states, labels) && i < |states| && a < b < |states[i].handed|
    ensures states[i].handed[a].n < states[i].handed[b].n
    ensures OpText(states[i].handed[a]) != OpText(states[i].handed[b])
  {
    RunInv(u, states, labels, i);
    if OpText(states[i].handed[a]) == OpText(states[i].handed[b]) {
      OpTextInjective(states[i].handed[a], states[i].handed[b]);
    }
  }

  /**
    Write-ahead: whatever a crash leaves on disk, the counter there covers every op id that was
    acknowledged or given to a backend, and an op in flight is on disk under its own key.
   */
  lemma WriteAhead(u: Setup, states: seq<Sys>, labels: seq<Label>, i: nat)
    requires Run(u, states, labels) && i < |states|
    ensures forall op :: op in states[i].acked || op in states[i].handed ==> 0 < op.n <= states[i].disk.nextOp
    ensures forall n :: n in states[i].tasks ==>
              var key := OpKey(states[i].tasks[n].machine.id, states[i].tasks[n].kind);
              key in states[i].disk.ops && states[i].disk.ops[key] == states[i].tasks[n].op
  {
    RunInv(u, states, labels, i);
    var s := states[i];
    forall op | op in s.handed
      ensures 0 < op.n <= s.disk.nextOp
    {
      var j :| 0 <= j < |s.handed| && s.handed[j] == op;
    }
    forall n | n in s.tasks
      ensures var key := OpKey(s.tasks[n].machine.id, s.tasks[n].kind);
              key in s.disk.ops && s.disk.ops[key] == s.tasks[n].op
    {
      assert Drives(s.disk, n, s.tasks[n]);
    }
  }

  /**
    Ids are seen only on disk: the one step that acknowledges an op id or gives it to a backend finds
    it stored already, under the machine and kind it was minted for.
   */
  lemma SeenOnlyOnDisk(u: Setup, states: seq<Sys>, labels: seq<Label>, i: nat)
    requires Run(u, states, labels) && i < |labels|
    ensures var s, after := states[i], states[i + 1];
            if !labels[i].Release? then after.acked == s.acked && after.handed == s.handed
            else
              && s.proc.Locked?
              && (forall op :: op in after.acked && op !in s.acked ==> Stored(s, op))
              && (after.handed == s.handed
                  || exists op :: Stored(s, op) && after.handed == s.handed + [op])
              && (s.proc.sec.reply.Some? && s.proc.sec.reply.value.Ack? ==> Stored(s, s.proc.sec.reply.value.op))
  {
    hide KitInv, RunSection, Stored, Loaded;
    RunInv(u, states, labels, i);
    if labels[i].Release? {
      ReleaseShowsStored(u, states[i]);
    }
  }

  /** The request being answered has this op id on disk under its own key. */
  predicate Stored(s: Sys, op: OpId) {
    s.proc.Locked? && s.proc.input.Rpc? && StoredFor(s.disk, s.proc.input.request, op)
  }

  predicate StoredFor(d: Durable, r: Request, op: OpId) {
    OpKey(r.id, r.kind) in d.ops && d.ops[OpKey(r.id, r.kind)] == op
  }

  lemma ReleaseShowsStored(u: Setup, s: Sys)
    requires KitInv(u, s) && Enabled(u, s, Release)
    ensures var sec := s.proc.sec;
            && (sec.reply.Some? && sec.reply.value.Ack? ==> Stored(s, sec.reply.value.op))
            && (sec.launched.Some? ==> Stored(s, sec.launched.value.op))
  {
    DiskFollows(u, s);
    hide DiskOk, CursorOk, TasksOk, CallsOk, HandedOk, TokensOk, BindingsOk, ReadyOk, InputOk;
    AnswersAreRecorded(u.cfg, s.proc.before, s.proc.input);
  }

  lemma AnswersAreRecorded(cfg: Config, b: Mem, input: Input)
    ensures var sec := RunSection(cfg, b, input);
            && (sec.reply.Some? && sec.reply.value.Ack? ==>
                  input.Rpc? && StoredFor(sec.mem.d, input.request, sec.reply.value.op))
            && (sec.launched.Some? ==> input.Rpc? && StoredFor(sec.mem.d, input.request, sec.launched.value.op))
            && (sec.reply.Some? && sec.reply.value.Ack? && !sec.persist ==> sec.mem.d.ops == b.d.ops)
            && (sec.launched.Some? ==> sec.persist)
  {
    hide Reconcile;
  }

  /** What dispatch starts, and what it merely repeats. */
  lemma StartsExactlyWhen(cfg: Config, m: Mem, r: Request)
    ensures var s := Dispatch(cfg, m, r);
            s.launched.Some? <==>
              && r.id != "" && (r.kind == Delete ==> cfg.canDelete)
              && CheckFence(m.d.fences, r.id, r.token).Passed?
              && r.id in m.d.machines && CanStart(m.d.machines[r.id].state, r.kind)
    ensures var s := Dispatch(cfg, m, r);
            s.launched.Some? ==>
              && s.launched.value.op.n == m.d.nextOp + 1
              && s.reply == Some(Ack(s.launched.value.op, s.mem.d.machines[r.id]))
              && s.mem.d.machines[r.id].state == Transitional(r.kind)
    ensures var s := Dispatch(cfg, m, r);
            s.launched.None? ==> s.mem.d == m.d.(fences := s.mem.d.fences) && s.mem.lastMod == m.lastMod
  {
  }

  /**
    A retry while the machine is at or heading to the target gets the recorded op id back, whatever
    its other arguments, and starts nothing.
   */
  lemma RetryRepeats(cfg: Config, m: Mem, r: Request)
    requires r.id != "" && (r.kind == Delete ==> cfg.canDelete)
    requires CheckFence(m.d.fences, r.id, r.token).Passed?
    requires r.id in m.d.machines && OpKey(r.id, r.kind) in m.d.ops && AtOrHeadingTo(m.d.machines[r.id].state, r.kind)
    ensures var s := Dispatch(cfg, m, r);
            && s.reply == Some(Ack(m.d.ops[OpKey(r.id, r.kind)], m.d.machines[r.id])) && s.launched == None
            && s.mem.d.machines == m.d.machines && s.mem.d.ops == m.d.ops && s.mem.d.rev == m.d.rev
  {
    assert !CanStart(m.d.machines[r.id].state, r.kind);
  }

  /** A transition accepted anywhere in a run carries an op id newer than every one seen before it. */
  lemma NewCycleIsFresh(u: Setup, states: seq<Sys>, labels: seq<Label>, i: nat)
    requires Run(u, states, labels) && i < |labels| && labels[i].Begin?
    requires states[i + 1].proc.sec.launched.Some?
    ensures var n := states[i + 1].proc.sec.launched.value.op.n;
            && (forall op :: op in states[i].acked || op in states[i].handed ==> op.n < n)
            && (forall key :: key in states[i].disk.ops ==> states[i].disk.ops[key].n < n)
  {
    RunInv(u, states, labels, i);
    WriteAhead(u, states, labels, i);
    SectionOps(u.cfg, states[i].proc.mem, labels[i].input);
  }

  /** A section that launched something is saved. */
  predicate SavesLaunch(s: Sys, l: Label) {
    l.Commit? && s.proc.Locked? && s.proc.sec.launched.Some?
  }

  /** A section that mints an op id is entered. */
  predicate Mints(s: Sys, l: Label, after: Sys) {
    l.Begin? && s.proc.Up? && after.proc.Locked? && after.proc.sec.launched.Some?
  }

  lemma StepCounter(u: Setup, s: Sys, l: Label)
    requires KitInv(u, s) && Enabled(u, s, l)
    ensures Next(u, s, l).disk.nextOp == s.disk.nextOp + if SavesLaunch(s, l) then 1 else 0
  {
    hide MemOk, CursorOk, InputOk, RunSection, TasksOk, CallsOk, HandedOk, TokensOk, BindingsOk, ReadyOk, Loaded;
    if l.Commit? {
      SectionOps(u.cfg, s.proc.before, s.proc.input);
    }
  }

  lemma {:induction false} CounterOverRuns(u: Setup, states: seq<Sys>, labels: seq<Label>, i: nat, j: nat)
    requires Run(u, states, labels) && i <= j < |states|
    ensures states[i].disk.nextOp <= states[j].disk.nextOp
    ensures states[i].disk.nextOp == states[j].disk.nextOp <==>
              forall k :: i <= k < j ==> !SavesLaunch(states[k], labels[k])
    decreases j - i
  {
    hide KitInv, Enabled, Next, SavesLaunch;
    if i < j {
      CounterOverRuns(u, states, labels, i, j - 1);
      RunInv(u, states, labels, j - 1);
      StepCounter(u, states[j - 1], labels[j - 1]);
    }
  }

  lemma MintedNumber(u: Setup, s: Sys, l: Label)
    requires KitInv(u, s) && Enabled(u, s, l) && Mints(s, l, Next(u, s, l))
    ensures Next(u, s, l).proc.sec.launched.value.op == OpId(u.cfg.prefix, s.disk.nextOp + 1)
  {
    hide MemOk, CursorOk, RunSection, TasksOk, CallsOk, HandedOk, TokensOk, BindingsOk, ReadyOk, Loaded;
    SectionOps(u.cfg, s.proc.mem, l.input);
  }

  /**
    Two mintings of a run give one op id exactly when nothing launched by a section entered from the
    first on was saved before the second: a crash must have undone the first and all that followed.
   */
  lemma SameOpExactlyWhen(u: Setup, states: seq<Sys>, labels: seq<Label>, i: nat, j: nat)
    requires Run(u, states, labels) && i < j < |labels|
    requires Mints(states[i], labels[i], states[i + 1]) && Mints(states[j], labels[j], states[j + 1])
    ensures states[i + 1].proc.sec.launched.value.op == states[j + 1].proc.sec.launched.value.op
            <==> forall k :: i <= k < j ==> !SavesLaunch(states[k], labels[k])
  {
    hide KitInv, Enabled, Next, SavesLaunch;
    RunInv(u, states, labels, i);
    RunInv(u, states, labels, j);
    MintedNumber(u, states[i], labels[i]);
    MintedNumber(u, states[j], labels[j]);
    CounterOverRuns(u, states, labels, i, j);
  }

  const SLOT := Instance("m", NO_HOST, Speculative, "t", "z", OnDemand, Fin(0.0), Fin(0.0), NilAttrs, NilAttrs,
                         NilAttrs)

  const CREATE := Request(Create, "m", Fence("", 0, 0), "", NilAttrs)

  /** The one machine of SLOT, as seeding and every later load leave it in memory. */
  const SEEDED := Mem(Durable(map["m" := SLOT.ToMachine()], map[], map[], 1, 0), map["m" := 1])

  /** Where the run below stands: the seeded store, nothing ever handed over. */
  function Standing(proc: Proc): Sys {
    Sys(proc, SEEDED.d, map[], map[], [], {}, [], map[])
  }

  lemma SeedsSlot(u: Setup)
    ensures Seedable(u.cfg, [SLOT]) && Reconcile(u.cfg, Loaded(NO_RECORDS), [SLOT]) == SEEDED
    ensures Loaded(SEEDED.d) == SEEDED && !IsFresh(SEEDED.d) && InFlight(SEEDED.d) == {} && RecoveredTo(SEEDED, SEEDED)
  {
    assert [SLOT][..0] == [];
    assert Loaded(SEEDED.d).lastMod == SEEDED.lastMod;
    assert Recover(SEEDED.d).machines == SEEDED.d.machines;
  }

  /** The first save puts the seeded inventory on disk and lets the process serve. */
  lemma SeedingRun(u: Setup)
    ensures var s1 := Entering(START, u.cfg, Loaded(NO_RECORDS), Seeding([SLOT]));
            && Enabled(u, START, Boot(Seeding([SLOT]))) && Next(u, START, Boot(Seeding([SLOT]))) == s1
            && Enabled(u, s1, Commit) && Enabled(u, Next(u, s1, Commit), Release)
            && Next(u, Next(u, s1, Commit), Release) == Standing(Up(SEEDED))
  {
    SeedsSlot(u);
    hide Reconcile, Seedable, Loaded;
    LoadedKeeps(NO_RECORDS);
  }

  /** A create is accepted in memory, the process dies before the save, and a restart finds the store as it was. */
  lemma LostCreate(u: Setup)
    ensures var up := Standing(Up(SEEDED));
            var locked := Entering(up, u.cfg, SEEDED, Rpc(CREATE));
            var again := Entering(Standing(Down), u.cfg, SEEDED, Recovering(SEEDED));
            && Enabled(u, up, Begin(Rpc(CREATE))) && Next(u, up, Begin(Rpc(CREATE))) == locked
            && Mints(up, Begin(Rpc(CREATE)), locked)
            && Enabled(u, locked, Crash) && Next(u, locked, Crash) == Standing(Down)
            && Enabled(u, Standing(Down), Boot(Recovering(SEEDED)))
            && Next(u, Standing(Down), Boot(Recovering(SEEDED))) == again
            && Enabled(u, again, Release) && Next(u, again, Release) == up
  {
    SeedsSlot(u);
    hide RecoveredTo, Loaded, InFlight;
  }

  /** Runs of eight steps, one label after another. */
  lemma EightSteps(u: Setup, s: seq<Sys>, l: seq<Label>)
    requires |s| == 9 && |l| == 8 && s[0] == START
    requires Enabled(u, s[0], l[0]) && s[1] == Next(u, s[0], l[0])
    requires Enabled(u, s[1], l[1]) && s[2] == Next(u, s[1], l[1])
    requires Enabled(u, s[2], l[2]) && s[3] == Next(u, s[2], l[2])
    requires Enabled(u, s[3], l[3]) && s[4] == Next(u, s[3], l[3])
    requires Enabled(u, s[4], l[4]) && s[5] == Next(u, s[4], l[4])
    requires Enabled(u, s[5], l[5]) && s[6] == Next(u, s[5], l[5])
    requires Enabled(u, s[6], l[6]) && s[7] == Next(u, s[6], l[6])
    requires Enabled(u, s[7], l[7]) && s[8] == Next(u, s[7], l[7])
    ensures Run(u, s, l)
  {
    hide Enabled, Next;
  }

  /** Op ids as minted are not distinct: this run mints one twice, with a crash before the first save. */
  lemma OpMintedTwice(u: Setup) returns (states: seq<Sys>, labels: seq<Label>)
    ensures Run(u, states, labels) && |labels| == 8
    ensures Mints(states[3], labels[3], states[4]) && labels[4].Crash? && labels[5].Boot?
    ensures Mints(states[7], labels[7], states[8])
    ensures states[4].proc.sec.launched.value.op == states[8].proc.sec.launched.value.op
  {
    hide Enabled, Next, Entering, RunSection;
    SeedingRun(u);
    LostCreate(u);
    var up := Standing(Up(SEEDED));
    var s1 := Entering(START, u.cfg, Loaded(NO_RECORDS), Seeding([SLOT]));
    var again := Entering(Standing(Down), u.cfg, SEEDED, Recovering(SEEDED));
    var locked := Entering(up, u.cfg, SEEDED, Rpc(CREATE));
    states := [START, s1, Next(u, s1, Commit), up, locked, Standing(Down), again, up, locked];
    labels := [Boot(Seeding([SLOT])), Commit, Release, Begin(Rpc(CREATE)), Crash,
               Boot(Recovering(SEEDED)), Release, Begin(Rpc(CREATE))];
    EightSteps(u, states, labels);
  }

  /* ---- the lifecycle over a run ---- */

  predicate Edge(a: State, b: State) {
    match a
    case Speculative => b == Creating
    case Creating => b == Idle || b == Failed
    case Idle => b == Configuring || b == Deleting
    case Configuring => b == Configured || b == Failed
    case Configured => b == Draining
    case Draining => b == Idle || b == Failed
    case Deleting => b == Speculative || b == Failed
    case _ => false
  }

  /** One durable step of one record: identity stays, the state follows an edge, and so does the binding. */
  predicate Moves(a: Machine, b: Machine) {
    && SameIdentity(a, b)
    && (a.state == b.state || Edge(a.state, b.state))
    && (a.state == b.state ==> SameOverlay(a, b))
    && (|| BindingOf(a) == BindingOf(b)
        || (a.state == Idle && b.state == Configuring) || (a.state == Draining && b.state == Idle))
  }

  ghost predicate AllMove(d: Durable, after: Durable) {
    forall id :: id in d.machines ==> id in after.machines && Moves(d.machines[id], after.machines[id])
  }

  lemma SectionMoves(cfg: Config, b: Mem, input: Input)
    requires MemOk(b) && InputOk(cfg, b, input)
    ensures AllMove(b.d, RunSection(cfg, b, input).mem.d)
  {
    hide MemOk, CursorOk, AllMove;
    match input
    case Rpc(r) => DispatchMoves(cfg, b, r);
    case Finish(t, res) => CompleteMoves(b, t, res);
    case Merge(list) => ReconcileMoves(cfg, b, list);
    case Seeding(list) => ReconcileMoves(cfg, b, list);
    case Recovering(after) => RecoverMoves(b, after);
  }

  lemma DispatchMoves(cfg: Config, b: Mem, r: Request)
    ensures AllMove(b.d, Dispatch(cfg, b, r).mem.d)
  {
    hide Dispatch;
    DispatchShape(cfg, b, r);
  }

  lemma CompleteMoves(b: Mem, t: Task, res: BackendResult)
    requires MemOk(b)
    ensures AllMove(b.d, Complete(b, t, res).mem.d)
  {
    hide OpsOk, CursorOk;
    if Complete(b, t, res).persist {
      assert InShape(b.d.machines[t.machine.id]);
    }
  }

  lemma ReconcileMoves(cfg: Config, b: Mem, list: seq<Instance>)
    ensures AllMove(b.d, Reconcile(cfg, b, list).d)
  {
    KeepsOverlay(cfg, b, list);
  }

  lemma RecoverMoves(b: Mem, after: Mem)
    requires RecoveredTo(b, after)
    ensures AllMove(b.d, after.d)
  {
    hide InFlight;
  }

  lemma StepMoves(u: Setup, s: Sys, l: Label)
    requires KitInv(u, s) && Enabled(u, s, l)
    ensures AllMove(s.disk, Next(u, s, l).disk)
  {
    hide MemOk, CursorOk, InputOk, RunSection, TasksOk, CallsOk, HandedOk, TokensOk, BindingsOk, ReadyOk, Loaded,
        AllMove;
    if l.Commit? {
      SectionMoves(u.cfg, s.proc.before, s.proc.input);
    } else {
      RestMoves(s.disk);
    }
  }

  lemma RestMoves(d: Durable)
    ensures AllMove(d, d)
  {
  }

  /** Why a stored record is what it is after a section, given what it was before: one cause for each kind of input. */
  ghost predicate Explained(cfg: Config, d: Durable, after: Durable, input: Input, id: string)
    requires id in after.machines
  {
    if id !in d.machines then
      (input.Merge? || input.Seeding?)
      && exists e :: e in input.listing && e.id == id && e.Valid(cfg.requireZone)
           && (DistinctIds(input.listing) ==> ImportedAs(after.machines[id], e))
    else
      match input
      case Rpc(r) =>
        after.machines[id] == d.machines[id] || (r.id == id && AcceptedAs(d.machines[id], after.machines[id], r))
      case Finish(t, res) =>
        if t.machine.id == id then SettledAs(d.machines[id], after.machines[id], t.kind, res)
        else after.machines[id] == d.machines[id]
      case Recovering(_) => InterruptedAs(d.machines[id], after.machines[id])
      case _ => OnlyFacts(d.machines[id], after.machines[id])
  }

  /**
    Over any run a stored record changes for one of five reasons only, and then field by field as that
    one says: a request for it was accepted, its operation was answered, a restart interrupted it, or a
    listing reported it, tracked already or new.
   */
  lemma EveryChangeIsExplained(u: Setup, states: seq<Sys>, labels: seq<Label>, i: nat, id: string)
    requires Run(u, states, labels) && i < |labels| && id in states[i + 1].disk.machines
    ensures if labels[i].Commit?
            then states[i].proc.Locked?
                 && Explained(u.cfg, states[i].disk, states[i + 1].disk, states[i].proc.input, id)
            else states[i + 1].disk == states[i].disk
  {
    hide KitInv, RunSection, Explained, Loaded;
    RunInv(u, states, labels, i);
    if labels[i].Commit? {
      CommitIsSection(u, states[i]);
      SectionExplains(u.cfg, states[i].proc.before, states[i].proc.input, id);
    }
  }

  lemma CommitIsSection(u: Setup, s: Sys)
    requires KitInv(u, s) && Enabled(u, s, Commit)
    ensures s.disk == s.proc.before.d && s.proc.sec == RunSection(u.cfg, s.proc.before, s.proc.input)
    ensures InputOk(u.cfg, s.proc.before, s.proc.input)
  {
    DiskFollows(u, s);
    hide DiskOk, CursorOk, TasksOk, CallsOk, HandedOk, TokensOk, BindingsOk, ReadyOk, InputOk, RunSection;
  }

  lemma SectionExplains(cfg: Config, b: Mem, input: Input, id: string)
    requires InputOk(cfg, b, input) && RunSection(cfg, b, input).persist
    requires id in RunSection(cfg, b, input).mem.d.machines
    ensures Explained(cfg, b.d, RunSection(cfg, b, input).mem.d, input, id)
  {
    hide SettledAs, AcceptedAs, ImportedAs, OnlyFacts, InterruptedAs;
    match input
    case Rpc(r) =>
      if Dispatch(cfg, b, r).launched.Some? {
        AcceptedExactly(cfg, b, r);
      }
    case Finish(t, res) => SettledExactly(b, t, res);
    case Merge(list) => ListingExplains(cfg, b, list, id);
    case Seeding(list) => ListingExplains(cfg, b, list, id);
    case Recovering(after) =>
      if id in b.d.machines {
        InterruptedExactly(b.d, id);
      }
  }

  lemma ListingExplains(cfg: Config, b: Mem, list: seq<Instance>, id: string)
    requires id in Reconcile(cfg, b, list).d.machines
    ensures if id in b.d.machines then OnlyFacts(b.d.machines[id], Reconcile(cfg, b, list).d.machines[id])
            else exists e :: e in list && e.id == id && e.Valid(cfg.requireZone)
                   && (DistinctIds(list) ==> ImportedAs(Reconcile(cfg, b, list).d.machines[id], e))
  {
    if DistinctIds(list) {
      ImportedExactly(cfg, b, list, id);
    } else if id in b.d.machines {
      OnlyFactsChange(cfg, b, list, id);
    } else {
      SomeEntry(cfg, b, list, id);
    }
  }

  lemma {:induction false} OnlyFactsChange(cfg: Config, b: Mem, list: seq<Instance>, id: string)
    requires id in b.d.machines
    ensures id in Reconcile(cfg, b, list).d.machines
    ensures OnlyFacts(b.d.machines[id], Reconcile(cfg, b, list).d.machines[id])
  {
    if |list| > 0 {
      OnlyFactsChange(cfg, b, list[..|list| - 1], id);
    }
  }

  lemma {:induction false} SomeEntry(cfg: Config, b: Mem, list: seq<Instance>, id: string)
    requires id !in b.d.machines && id in Reconcile(cfg, b, list).d.machines
    ensures exists e :: e in list && e.id == id && e.Valid(cfg.requireZone)
  {
    if |list| > 0 {
      var init, last := list[..|list| - 1], list[|list| - 1];
      assert list == init + [last];
      if id in Reconcile(cfg, b, init).d.machines {
        SomeEntry(cfg, b, init, id);
      } else {
        assert last in list;
      }
    }
  }

  /** Field shape holds of every stored record, and of every record in memory while the process serves. */
  lemma RecordsStayInShape(u: Setup, states: seq<Sys>, labels: seq<Label>, i: nat, id: string)
    requires Run(u, states, labels) && i < |states| && id in states[i].disk.machines
    ensures InShape(states[i].disk.machines[id]) && states[i].disk.machines[id].id == id
    ensures states[i].proc.Up? ==> states[i].proc.mem.d == states[i].disk
  {
    RunInv(u, states, labels, i);
  }

  /** Between any two moments of a run no machine is dropped, its identity is kept, and Failed is final. */
  lemma {:induction false} LifecycleOverRuns(u: Setup, states: seq<Sys>, labels: seq<Label>, i: nat, j: nat, id: string)
    requires Run(u, states, labels) && i <= j < |states| && id in states[i].disk.machines
    ensures id in states[j].disk.machines
    ensures SameIdentity(states[i].disk.machines[id], states[j].disk.machines[id])
    ensures states[i].disk.machines[id].state == Failed ==>
              SameOverlay(states[i].disk.machines[id], states[j].disk.machines[id])
    decreases j - i
  {
    hide KitInv, Enabled, Next;
    if i < j {
      RunInv(u, states, labels, i);
      StepMoves(u, states[i], labels[i]);
      LifecycleOverRuns(u, states, labels, i + 1, j, id);
    }
  }

  /* ---- bindings ---- */

  predicate DrainCompletes(s: Sys, l: Label, id: string) {
    && l.Commit? && s.proc.Locked? && s.proc.input.Finish?
    && s.proc.input.task.kind == Drain && s.proc.input.task.machine.id == id && s.proc.input.res.Ok?
  }

  lemma OnlyDrainUnbinds(cfg: Config, b: Mem, input: Input, id: string)
    requires MemOk(b) && InputOk(cfg, b, input) && id in b.d.machines
    requires b.d.machines[id].cluster != ""
    ensures var after := RunSection(cfg, b, input).mem.d.machines;
            && id in after
            && (after[id].cluster == b.d.machines[id].cluster
                || (input.Finish? && input.task.kind == Drain && input.task.machine.id == id && input.res.Ok?))
  {
    hide MemOk, CursorOk;
    match input
    case Rpc(r) =>
      ShapeAt(b, id);
      DispatchKeepsCluster(cfg, b, r, id);
    case Finish(t, res) =>
    case Merge(list) => KeepsOverlay(cfg, b, list);
    case Seeding(list) =>
    case Recovering(after) => hide InFlight;
  }

  lemma DispatchKeepsCluster(cfg: Config, b: Mem, r: Request, id: string)
    requires id in b.d.machines && InShape(b.d.machines[id]) && b.d.machines[id].cluster != ""
    ensures id in Dispatch(cfg, b, r).mem.d.machines
    ensures Dispatch(cfg, b, r).mem.d.machines[id].cluster == b.d.machines[id].cluster
  {
    hide Dispatch;
    DispatchShape(cfg, b, r);
  }

  lemma ShapeAt(b: Mem, id: string)
    requires MemOk(b) && id in b.d.machines
    ensures InShape(b.d.machines[id])
  {
  }

  lemma StepRebinds(u: Setup, s: Sys, l: Label, id: string)
    requires KitInv(u, s) && Enabled(u, s, l) && id in s.disk.machines && s.disk.machines[id].cluster != ""
    ensures id in Next(u, s, l).disk.machines
    ensures Next(u, s, l).disk.machines[id].cluster == s.disk.machines[id].cluster || DrainCompletes(s, l, id)
  {
    hide MemOk, CursorOk, InputOk, RunSection, TasksOk, CallsOk, HandedOk, TokensOk, BindingsOk, ReadyOk, Loaded;
    if l.Commit? {
      OnlyDrainUnbinds(u.cfg, s.proc.before, s.proc.input, id);
    }
  }

  /** A machine bound to two different clusters at two moments of a run was drained in between. */
  lemma {:induction false} RebindingNeedsDrain(u: Setup, states: seq<Sys>, labels: seq<Label>, i: nat, j: nat,
      id: string)
    requires Run(u, states, labels) && i <= j < |states| && id in states[i].disk.machines
    requires id in states[j].disk.machines
    requires states[i].disk.machines[id].cluster != ""
    requires states[j].disk.machines[id].cluster != states[i].disk.machines[id].cluster
    ensures exists k :: i <= k < j && DrainCompletes(states[k], labels[k], id)
    decreases j - i
  {
    hide KitInv, Enabled, Next, DrainCompletes;
    RunInv(u, states, labels, i);
    StepRebinds(u, states[i], labels[i], id);
    if states[i + 1].disk.machines[id].cluster == states[i].disk.machines[id].cluster {
      RebindingNeedsDrain(u, states, labels, i + 1, j, id);
    }
  }

  /** The accepted request r is saved under op number n. */
  predicate SavesRequest(s: Sys, l: Label, n: nat, r: Request) {
    && l.Commit? && s.proc.Locked? && s.proc.input == Rpc(r)
    && s.proc.sec.launched.Some? && s.proc.sec.launched.value.op.n == n
  }

  /**
    While a binding exists, cluster and shard metadata are verbatim what a Configure of this machine
    asked for, one that was accepted earlier in the run under the very op id recorded for the machine;
    a Failed record keeps that binding or has none.
   */
  lemma BindingIsVerbatim(u: Setup, states: seq<Sys>, labels: seq<Label>, i: nat, id: string)
    requires Run(u, states, labels) && i < |states| && id in states[i].disk.machines
    requires var m := states[i].disk.machines[id]; Bound(m.state) || m.cluster != "" || m.metadata != NilAttrs
    ensures var m, key := states[i].disk.machines[id], OpKey(id, Configure);
            && key in states[i].disk.ops
            && exists j, r: Request :: 0 <= j < i && SavesRequest(states[j], labels[j], states[i].disk.ops[key].n, r)
                 && r.kind == Configure && r.id == id && r.cluster == m.cluster && r.metadata == m.metadata
  {
    hide Enabled, Next, SavesRequest;
    RunInv(u, states, labels, i);
    assert BindingKept(states[i].disk, states[i].asked, id);
    AskedIsSaved(u, states, labels, i, states[i].disk.ops[OpKey(id, Configure)].n);
  }

  lemma {:induction false} AskedIsSaved(u: Setup, states: seq<Sys>, labels: seq<Label>, i: nat, n: nat)
    requires Run(u, states, labels) && i < |states| && n in states[i].asked
    ensures exists j :: 0 <= j < i && SavesRequest(states[j], labels[j], n, states[i].asked[n])
  {
    hide Enabled, SavesRequest;
    assert i > 0;
    OneRequestMore(u, states[i - 1], labels[i - 1], n);
    if !SavesRequest(states[i - 1], labels[i - 1], n, states[i].asked[n]) {
      AskedIsSaved(u, states, labels, i - 1, n);
    }
  }

  lemma OneRequestMore(u: Setup, s: Sys, l: Label, n: nat)
    requires Enabled(u, s, l) && n in Next(u, s, l).asked
    ensures SavesRequest(s, l, n, Next(u, s, l).asked[n]) || (n in s.asked && s.asked[n] == Next(u, s, l).asked[n])
  {
    hide RunSection, Loaded;
  }

  /* ---- readiness ---- */

  /** A machine counts as delivered only after the backend said so for the op that configured it. */
  lemma ConfiguredIsReady(u: Setup, states: seq<Sys>, labels: seq<Label>, i: nat, id: string)
    requires Run(u, states, labels) && i < |states| && id in states[i].disk.machines
    requires states[i].disk.machines[id].state == Configured || states[i].disk.machines[id].state == Draining
    ensures var s, key := states[i], OpKey(id, Configure);
            && key in s.disk.ops && s.disk.ops[key].n in s.calls
            && s.calls[s.disk.ops[key].n].applied && (u.gated ==> s.calls[s.disk.ops[key].n].ready)
  {
    RunInv(u, states, labels, i);
    assert ReadyKept(u, states[i].disk, states[i].calls, id);
  }

  /* ---- restart ---- */

  /**
    A crash loses nothing that was visible: between sections the store equals memory, and a crash
    inside one leaves either the state before it or, once saved, the state after it.
   */
  lemma CrashIsAtomic(u: Setup, states: seq<Sys>, labels: seq<Label>, i: nat)
    requires Run(u, states, labels) && i < |labels| && labels[i].Crash?
    ensures var s, after := states[i], states[i + 1];
            && after.proc == Down && after.tasks == map[]
            && (s.proc.Up? ==> after.disk == s.proc.mem.d)
            && (s.proc.Locked? ==> after.disk == if s.proc.saved then s.proc.sec.mem.d else s.proc.before.d)
  {
    hide KitInv, Enabled;
    RunInv(u, states, labels, i);
    DiskFollows(u, states[i]);
  }

  lemma DiskFollows(u: Setup, s: Sys)
    requires KitInv(u, s)
    ensures s.proc.Up? ==> s.disk == s.proc.mem.d
    ensures s.proc.Locked? ==> s.disk == if s.proc.saved then s.proc.sec.mem.d else s.proc.before.d
  {
    hide DiskOk, CursorOk, TasksOk, CallsOk, HandedOk, TokensOk, BindingsOk, ReadyOk, InputOk, RunSection;
  }

  /**
    Restarting from any moment rebuilds the stored machines, fences, ops and counters, except that
    exactly the machines in flight become Failed, each with a revision of its own; nothing is in
    flight afterwards, so restarting once more would save nothing.
   */
  lemma RestartIsExact(u: Setup, states: seq<Sys>, labels: seq<Label>, i: nat)
    requires Run(u, states, labels) && i < |labels| && labels[i].Boot? && !IsFresh(states[i].disk)
    ensures var d, sec := states[i].disk, states[i + 1].proc.sec;
            && sec.mem.d.fences == d.fences && sec.mem.d.ops == d.ops && sec.mem.d.nextOp == d.nextOp
            && sec.mem.d.rev == d.rev + |InFlight(d)| && sec.mem.d.machines.Keys == d.machines.Keys
            && (forall id :: id in d.machines ==>
                  InterruptedAs(d.machines[id], sec.mem.d.machines[id])
                  && (IsTransitional(d.machines[id].state) <==> sec.mem.d.machines[id] != d.machines[id]))
            && InFlight(sec.mem.d) == {} && (sec.persist <==> InFlight(d) != {})
            && InFlight(d) <= sec.mem.lastMod.Keys && DistinctRevisions(sec.mem.lastMod, InFlight(d))
            && (forall id :: id in InFlight(d) ==> sec.mem.lastMod[id] > d.rev)
            && forall again :: RecoveredTo(Loaded(sec.mem.d), again) ==> again == Loaded(sec.mem.d)
  {
    hide KitInv, RecoveredTo, Recover, InFlight, Loaded, Next, Enabled, InterruptedAs, IsTransitional;
    RunInv(u, states, labels, i);
    BootSection(u, states[i], labels[i]);
    InvDisk(u, states[i]);
    RestartShape(states[i].disk, labels[i].input.after);
    RestartOnce(states[i].disk, labels[i].input.after);
  }

  lemma BootSection(u: Setup, s: Sys, l: Label)
    requires Enabled(u, s, l) && l.Boot? && !IsFresh(s.disk)
    ensures l.input.Recovering? && RecoveredTo(Loaded(s.disk), l.input.after)
    ensures Next(u, s, l).proc.Locked? && Next(u, s, l).proc.sec.mem == l.input.after
    ensures Next(u, s, l).proc.sec.persist <==> InFlight(s.disk) != {}
  {
    LoadedKeeps(s.disk);
    hide RecoveredTo, InFlight, Loaded;
  }

  lemma InvDisk(u: Setup, s: Sys)
    requires KitInv(u, s)
    ensures DiskOk(s.disk)
  {
  }

  lemma RestartShape(d: Durable, after: Mem)
    requires RecoveredTo(Loaded(d), after)
    ensures after.d.fences == d.fences && after.d.ops == d.ops && after.d.nextOp == d.nextOp
    ensures after.d.rev == d.rev + |InFlight(d)| && after.d.machines.Keys == d.machines.Keys
    ensures InFlight(d) <= after.lastMod.Keys && DistinctRevisions(after.lastMod, InFlight(d))
    ensures forall id :: id in InFlight(d) ==> after.lastMod[id] > d.rev
    ensures forall id :: id in d.machines ==>
              && InterruptedAs(d.machines[id], after.d.machines[id])
              && (IsTransitional(d.machines[id].state) <==> after.d.machines[id] != d.machines[id])
  {
    forall id | id in d.machines
      ensures InterruptedAs(d.machines[id], after.d.machines[id])
      ensures IsTransitional(d.machines[id].state) <==> after.d.machines[id] != d.machines[id]
    {
      InterruptedExactly(d, id);
    }
    hide InFlight;
  }

  lemma RestartOnce(d: Durable, after: Mem)
    requires DiskOk(d) && RecoveredTo(Loaded(d), after)
    ensures InFlight(after.d) == {}
    ensures forall again :: RecoveredTo(Loaded(after.d), again) ==> again == Loaded(after.d)
  {
    hide DiskOk, RecoveredTo, InFlight, Loaded;
    LoadedIsOk(d);
    LoadedKeeps(d);
    RecoverKeepsMem(Loaded(d), after);
    LoadedIsOk(after.d);
    LoadedKeeps(after.d);
    forall again | RecoveredTo(Loaded(after.d), again)
      ensures again == Loaded(after.d)
    {
      RecoverNothing(Loaded(after.d), again);
    }
  }

  lemma LoadedKeeps(d: Durable)
    ensures Loaded(d).d == d
  {
  }
}
