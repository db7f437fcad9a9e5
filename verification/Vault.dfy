/**
  digitalocean/bootstrap.go: the mailbox between a Configure or Drain call and a machine's agent.
  A waiter is the heap cell of one Enqueue call, named by its allocation number; its one-slot
  channel is the `done` field.
 */
module Vault {
  import opened Machines
  import Text

  const U64: nat := 0x1_0000_0000_0000_0000

  /** What Enqueue returns: nil, or an error. */
  datatype Outcome = Applied | Refused(reason: string)

  const SUPERSEDED := Refused("superseded by a newer command")

  datatype Phase = Waiting | Leaving(outcome: Outcome) | Gone(outcome: Outcome)

  datatype Waiter = Waiter(machine: string, id: string, done: Option<Outcome>, phase: Phase)

  datatype Desk = Desk(issued: nat, counter: nat, pending: map<string, nat>, waiters: map<nat, Waiter>)

  const OPENED := Desk(0, 0, map[], map[])

  /** An ack whose command id matched the pending command; its handler still holds the waiter. */
  datatype Ack = Ack(waiter: nat, machine: string, commandId: string, ok: bool, error: string)

  datatype Response = Unauthorized | BadRequest | NoContent | Command(id: string) | Done

  /* ---- the steps as functions ---- */

  /** A send that gives up when the one slot is taken. */
  function TrySend(w: Waiter, o: Outcome): Waiter {
    if w.done == None then w.(done := Some(o)) else w
  }

  function Submitted(d: Desk, machine: string): Desk {
    var n := (d.counter + 1) % U64;
    var told := if machine in d.pending && d.pending[machine] in d.waiters
                then d.waiters[d.pending[machine] := TrySend(d.waiters[d.pending[machine]], SUPERSEDED)] else d.waiters;
    Desk(d.issued + 1, n, d.pending[machine := d.issued], told[d.issued := Waiter(machine, Text.Dec(n), None, Waiting)])
  }

  predicate Matches(d: Desk, machine: string, commandId: string) {
    machine in d.pending && d.pending[machine] in d.waiters && d.waiters[d.pending[machine]].id == commandId
  }

  function Verdict(a: Ack): Outcome {
    if a.ok then Applied
    else
      var cause := if a.error == "" then "agent reported failure" else a.error;
      Refused("agent bootstrap failed for " + a.machine + ": " + cause)
  }

  function Delivered(d: Desk, a: Ack): Desk
    requires a.waiter in d.waiters
  {
    d.(waiters := d.waiters[a.waiter := TrySend(d.waiters[a.waiter], Verdict(a))])
  }

  function Received(d: Desk, w: nat): Desk
    requires w in d.waiters && d.waiters[w].done.Some?
  {
    d.(waiters := d.waiters[w := d.waiters[w].(done := None, phase := Leaving(d.waiters[w].done.value))])
  }

  function Cancelled(d: Desk, w: nat, reason: string): Desk
    requires w in d.waiters
  {
    d.(waiters := d.waiters[w := d.waiters[w].(phase := Leaving(Refused(reason)))])
  }

  function Withdrawn(d: Desk, w: nat): Desk
    requires w in d.waiters && d.waiters[w].phase.Leaving?
  {
    var me := d.waiters[w];
    d.(pending := if me.machine in d.pending && d.pending[me.machine] == w then d.pending - {me.machine} else d.pending,
       waiters := d.waiters[w := me.(phase := Gone(me.phase.outcome))])
  }

  /* ---- the vault ---- */

  class BootstrapVault {
    var issued: nat
    var counter: nat
    var pending: map<string, nat>
    var waiters: map<nat, Waiter>

    function Contents(): Desk
      reads this
    {
      Desk(issued, counter, pending, waiters)
    }

    constructor ()
      ensures Contents() == OPENED
    {
      issued, counter, pending, waiters := 0, 0, map[], map[];
    }

    /** Enqueue up to the unlock. */
    method Submit(machine: string) returns (w: nat)
      modifies this
      ensures Contents() == Submitted(old(Contents()), machine) && w == old(issued)
    {
      w := issued;
      issued := issued + 1;
      counter := (counter + 1) % U64;
      if machine in pending && pending[machine] in waiters {
        var before := pending[machine];
        if waiters[before].done == None {
          waiters := waiters[before := waiters[before].(done := Some(SUPERSEDED))];
        }
      }
      waiters := waiters[w := Waiter(machine, Text.Dec(counter), None, Waiting)];
      pending := pending[machine := w];
    }

    /** The receive case of Enqueue's select. */
    method Receive(w: nat) returns (o: Outcome)
      requires w in waiters && waiters[w].done.Some?
      modifies this
      ensures Contents() == Received(old(Contents()), w) && Some(o) == old(waiters[w].done)
    {
      o := waiters[w].done.value;
      waiters := waiters[w := waiters[w].(done := None, phase := Leaving(o))];
    }

    /** The cancellation case of Enqueue's select. */
    method Cancel(w: nat, reason: string)
      requires w in waiters
      modifies this
      ensures Contents() == Cancelled(old(Contents()), w, reason)
    {
      waiters := waiters[w := waiters[w].(phase := Leaving(Refused(reason)))];
    }

    /** Enqueue's deferred cleanup. */
    method Withdraw(w: nat)
      requires w in waiters && waiters[w].phase.Leaving?
      modifies this
      ensures Contents() == Withdrawn(old(Contents()), w)
    {
      var machine := waiters[w].machine;
      if machine in pending && pending[machine] == w {
        pending := pending - {machine};
      }
      waiters := waiters[w := waiters[w].(phase := Gone(waiters[w].phase.outcome))];
    }

    method HandleCommand(machine: string, authentic: bool) returns (r: Response)
      ensures !authentic || machine == "" <==> r == Unauthorized
      ensures r == Unauthorized || r == NoContent || r.Command?
      ensures r.Command? ==> Matches(Contents(), machine, r.id)
      ensures r == NoContent ==> forall id :: !Matches(Contents(), machine, id)
    {
      if machine == "" || !authentic {
        return Unauthorized;
      }
      if machine in pending && pending[machine] in waiters {
        return Command(waiters[pending[machine]].id);
      }
      return NoContent;
    }

    /** handleAck up to the unlock: which waiter the ack will be delivered to, if any. */
    method LookUpAck(machine: string, authentic: bool, body: Option<(string, bool, string)>) returns (r: Response,
        a: Option<Ack>)
      ensures machine == "" || !authentic ==> r == Unauthorized
      ensures machine != "" && authentic ==>
                match body
                case None => r == BadRequest && a == None
                case Some(b) =>
                  (Matches(Contents(), machine, b.0) <==> r == Done) && (r == Done || (r == NoContent && a == None))
      ensures r == Done <==> a.Some?
      ensures a.Some? ==>
                body.Some? && a.value == Ack(pending[machine], machine, body.value.0, body.value.1, body.value.2)
    {
      if machine == "" || !authentic {
        return Unauthorized, None;
      }
      if body == None {
        return BadRequest, None;
      }
      var (commandId, ok, error) := body.value;
      if machine !in pending || pending[machine] !in waiters || waiters[pending[machine]].id != commandId {
        return NoContent, None;
      }
      return Done, Some(Ack(pending[machine], machine, commandId, ok, error));
    }

    /** The rest of handleAck. */
    method Deliver(a: Ack)
      requires a.waiter in waiters
      modifies this
      ensures Contents() == Delivered(old(Contents()), a)
    {
      var result := Applied;
      if !a.ok {
        var message := if a.error == "" then "agent reported failure" else a.error;
        result := Refused("agent bootstrap failed for " + a.machine + ": " + message);
      }
      if waiters[a.waiter].done == None {
        waiters := waiters[a.waiter := waiters[a.waiter].(done := Some(result))];
      }
    }
  }

  /* ---- one lifetime as a transition system ---- */

  datatype Floor = Floor(
    desk: Desk,
    held: map<nat, Ack>,    // handlers between their lookup and their send
    accepted: set<Ack>)     // history: every ack that matched

  datatype Step =
    | Enqueue(machine: string)
    | AckLookUp(handler: nat, machine: string, commandId: string, ok: bool, error: string)
    | AckSend(handler: nat)
    | Take(w: nat)
    | GiveUp(w: nat, reason: string)
    | Leave(w: nat)

  const EMPTY := Floor(OPENED, map[], {})

  predicate Can(f: Floor, s: Step) {
    match s
    case Enqueue(_) => true
    case AckLookUp(h, _, _, _, _) => h !in f.held
    case AckSend(h) => h in f.held && f.held[h].waiter in f.desk.waiters
    case Take(w) => w in f.desk.waiters && f.desk.waiters[w].phase == Waiting && f.desk.waiters[w].done.Some?
    case GiveUp(w, _) => w in f.desk.waiters && f.desk.waiters[w].phase == Waiting
    case Leave(w) => w in f.desk.waiters && f.desk.waiters[w].phase.Leaving?
  }

  function After(f: Floor, s: Step): Floor
    requires Can(f, s)
  {
    match s
    case Enqueue(machine) => f.(desk := Submitted(f.desk, machine))
    case AckLookUp(h, machine, id, ok, error) =>
      if Matches(f.desk, machine, id) then
        var a := Ack(f.desk.pending[machine], machine, id, ok, error);
        f.(held := f.held[h := a], accepted := f.accepted + {a})
      else f
    case AckSend(h) => f.(desk := Delivered(f.desk, f.held[h]), held := f.held - {h})
    case Take(w) => f.(desk := Received(f.desk, w))
    case GiveUp(w, reason) => f.(desk := Cancelled(f.desk, w, reason))
    case Leave(w) => f.(desk := Withdrawn(f.desk, w))
  }

  ghost predicate Lifetime(states: seq<Floor>, steps: seq<Step>) {
    && |states| == |steps| + 1 && states[0] == EMPTY
    && forall i :: 0 <= i < |steps| ==> Can(states[i], steps[i]) && states[i + 1] == After(states[i], steps[i])
  }

  /* ---- what every step keeps ---- */

  predicate Owes(w: Waiter) {
    w.done == Some(Applied) || (!w.phase.Waiting? && w.phase.outcome == Applied)
  }

  ghost predicate Newest(d: Desk, w: nat)
    requires w in d.waiters
  {
    forall v :: v in d.waiters && d.waiters[v].machine == d.waiters[w].machine ==> v <= w
  }

  ghost predicate CountersOk(d: Desk) {
    && d.counter == d.issued % U64
    && (forall w :: w in d.waiters <==> 0 <= w < d.issued)
    && forall w :: w in d.waiters ==> d.waiters[w].id == Text.Dec((w + 1) % U64)
  }

  /** The pending command of a machine is its newest one, for as long as that one's caller is there. */
  ghost predicate PendingOk(d: Desk) {
    && (forall m :: m in d.pending ==>
          d.pending[m] in d.waiters && d.waiters[d.pending[m]].machine == m && !d.waiters[d.pending[m]].phase.Gone?
          && Newest(d, d.pending[m]))
    && (forall w :: w in d.waiters && !d.waiters[w].phase.Gone? && Newest(d, w) ==>
          d.waiters[w].machine in d.pending && d.pending[d.waiters[w].machine] == w)
    && forall w :: w in d.waiters && d.waiters[w].phase == Waiting ==> Newest(d, w) || d.waiters[w].done.Some?
  }

  ghost predicate Vouched(accepted: set<Ack>, w: nat) {
    exists a :: a in accepted && a.waiter == w && a.ok
  }

  ghost predicate AcksOk(f: Floor) {
    && (forall h :: h in f.held ==> f.held[h] in f.accepted)
    && (forall a :: a in f.accepted ==>
          && a.waiter in f.desk.waiters && a.machine == f.desk.waiters[a.waiter].machine
          && a.commandId == f.desk.waiters[a.waiter].id)
    && (forall w :: w in f.desk.waiters && Owes(f.desk.waiters[w]) ==> Vouched(f.accepted, w))
  }

  ghost predicate FloorOk(f: Floor) {
    CountersOk(f.desk) && PendingOk(f.desk) && AcksOk(f)
  }

  lemma SubmitKeepsPending(d: Desk, machine: string)
    requires CountersOk(d) && PendingOk(d)
    ensures PendingOk(Submitted(d, machine))
  {
    hide Newest, CountersOk;
    SubmitIsNewest(d, machine);
    forall w | w in d.waiters
      ensures Newest(Submitted(d, machine), w) <==> Newest(d, w) && d.waiters[w].machine != machine
    {
      SubmitNewest(d, machine, w);
    }
  }

  lemma SubmitKeepsCounters(d: Desk, machine: string)
    requires CountersOk(d)
    ensures CountersOk(Submitted(d, machine))
  {
    Successors(d.issued, d.counter);
  }

  lemma SubmitIsNewest(d: Desk, machine: string)
    requires CountersOk(d)
    ensures d.issued !in d.waiters && Newest(Submitted(d, machine), d.issued)
  {
  }

  lemma SubmitNewest(d: Desk, machine: string, w: nat)
    requires CountersOk(d) && w in d.waiters
    ensures w in Submitted(d, machine).waiters
    ensures Newest(Submitted(d, machine), w) <==> Newest(d, w) && d.waiters[w].machine != machine
  {
    var e := Submitted(d, machine);
    assert d.issued in e.waiters && e.waiters[d.issued].machine == machine;
    if Newest(e, w) {
      forall v | v in d.waiters && d.waiters[v].machine == d.waiters[w].machine
        ensures v <= w
      {
        assert v in e.waiters && e.waiters[v].machine == d.waiters[v].machine;
      }
    }
  }

  /** Steps that touch one waiter's channel or phase only. */
  lemma TouchKeepsPending(d: Desk, w: nat, v: Waiter)
    requires CountersOk(d) && PendingOk(d) && w in d.waiters
    requires v.machine == d.waiters[w].machine && v.id == d.waiters[w].id
    requires (v.phase.Gone? <==> d.waiters[w].phase.Gone?)
    requires v.phase == Waiting ==> d.waiters[w].phase == Waiting && (d.waiters[w].done.Some? ==> v.done.Some?)
    ensures PendingOk(d.(waiters := d.waiters[w := v])) && CountersOk(d.(waiters := d.waiters[w := v]))
  {
    hide Newest, PendingOk;
    assert CountersOk(d.(waiters := d.waiters[w := v]));
    TouchedPending(d, w, v);
  }

  lemma TouchedPending(d: Desk, w: nat, v: Waiter)
    requires PendingOk(d) && w in d.waiters
    requires v.machine == d.waiters[w].machine && v.id == d.waiters[w].id
    requires (v.phase.Gone? <==> d.waiters[w].phase.Gone?)
    requires v.phase == Waiting ==> d.waiters[w].phase == Waiting && (d.waiters[w].done.Some? ==> v.done.Some?)
    ensures PendingOk(d.(waiters := d.waiters[w := v]))
  {
    hide Newest;
    var e := d.(waiters := d.waiters[w := v]);
    forall x | x in d.waiters
      ensures Newest(e, x) <==> Newest(d, x)
    {
      SameNewest(d, e, x);
    }
  }

  lemma SameNewest(d: Desk, e: Desk, x: nat)
    requires d.waiters.Keys == e.waiters.Keys && x in d.waiters
    requires forall w :: w in d.waiters ==> e.waiters[w].machine == d.waiters[w].machine
    ensures Newest(e, x) <==> Newest(d, x)
  {
    if Newest(d, x) {
      assert Newest(e, x);
    }
    if Newest(e, x) {
      assert forall v :: v in d.waiters ==> v in e.waiters && e.waiters[v].machine == d.waiters[v].machine;
      assert Newest(d, x);
    }
  }

  lemma WithdrawKeepsPending(d: Desk, w: nat)
    requires CountersOk(d) && PendingOk(d) && w in d.waiters && d.waiters[w].phase.Leaving?
    ensures PendingOk(Withdrawn(d, w)) && CountersOk(Withdrawn(d, w))
  {
    hide Newest, PendingOk;
    assert CountersOk(Withdrawn(d, w));
    WithdrawnPending(d, w);
  }

  lemma WithdrawnPending(d: Desk, w: nat)
    requires PendingOk(d) && w in d.waiters && d.waiters[w].phase.Leaving?
    ensures PendingOk(Withdrawn(d, w))
  {
    hide Newest;
    var e := Withdrawn(d, w);
    forall x | x in d.waiters
      ensures Newest(e, x) <==> Newest(d, x)
    {
      SameNewest(d, e, x);
    }
  }

  lemma OwesStays(f: Floor, s: Step, w: nat)
    requires CountersOk(f.desk) && Can(f, s) && w in After(f, s).desk.waiters && Owes(After(f, s).desk.waiters[w])
    ensures (w in f.desk.waiters && Owes(f.desk.waiters[w])) || (s.AckSend? && f.held[s.handler].waiter == w
              && f.held[s.handler].ok)
  {
  }

  lemma StepKeepsIdentity(f: Floor, s: Step, w: nat)
    requires CountersOk(f.desk) && Can(f, s) && w in f.desk.waiters
    ensures w in After(f, s).desk.waiters
    ensures var v := After(f, s).desk.waiters[w]; v.machine == f.desk.waiters[w].machine && v.id == f.desk.waiters[w].id
  {
  }

  lemma StepKeepsAcks(f: Floor, s: Step)
    requires FloorOk(f) && Can(f, s)
    ensures AcksOk(After(f, s))
  {
    var g := After(f, s);
    assert f.accepted <= g.accepted && (forall h :: h in g.held ==> g.held[h] in g.accepted);
    forall w | w in g.desk.waiters && Owes(g.desk.waiters[w])
      ensures Vouched(g.accepted, w)
    {
      OwesStays(f, s, w);
      if s.AckSend? && f.held[s.handler].waiter == w && f.held[s.handler].ok {
        assert f.held[s.handler] in g.accepted;
      } else {
        assert Vouched(f.accepted, w);
      }
    }
    forall a | a in g.accepted
      ensures a.waiter in g.desk.waiters && a.machine == g.desk.waiters[a.waiter].machine
      ensures a.commandId == g.desk.waiters[a.waiter].id
    {
      NewAck(f, s, a);
      StepKeepsIdentity(f, s, a.waiter);
    }
  }

  lemma NewAck(f: Floor, s: Step, a: Ack)
    requires FloorOk(f) && Can(f, s) && a in After(f, s).accepted
    ensures a.waiter in f.desk.waiters && a.machine == f.desk.waiters[a.waiter].machine
    ensures a.commandId == f.desk.waiters[a.waiter].id
  {
  }

  lemma StepKeeps(f: Floor, s: Step)
    requires FloorOk(f) && Can(f, s)
    ensures FloorOk(After(f, s))
  {
    StepKeepsAcks(f, s);
    hide AcksOk, PendingOk, CountersOk;
    match s
    case Enqueue(machine) => SubmitKeepsPending(f.desk, machine); SubmitKeepsCounters(f.desk, machine);
    case AckLookUp(_, _, _, _, _) =>
    case AckSend(h) =>
      var w := f.held[h].waiter;
      TouchKeepsPending(f.desk, w, Delivered(f.desk, f.held[h]).waiters[w]);
    case Take(w) => TouchKeepsPending(f.desk, w, Received(f.desk, w).waiters[w]);
    case GiveUp(w, reason) => TouchKeepsPending(f.desk, w, Cancelled(f.desk, w, reason).waiters[w]);
    case Leave(w) => WithdrawKeepsPending(f.desk, w);
  }

  lemma {:induction false} LifetimeOk(states: seq<Floor>, steps: seq<Step>, i: nat)
    requires Lifetime(states, steps) && i < |states|
    ensures FloorOk(states[i])
  {
    hide FloorOk, Can, After;
    if i == 0 {
      EmptyOk();
    } else {
      LifetimeOk(states, steps, i - 1);
      StepKeeps(states[i - 1], steps[i - 1]);
    }
  }

  lemma EmptyOk()
    ensures FloorOk(EMPTY)
  {
  }

  /* ---- the promises ---- */

  /** The step at which an accepted ack was looked up, by then its waiter being the machine's pending one. */
  lemma {:induction false} AckWasSent(states: seq<Floor>, steps: seq<Step>, i: nat, a: Ack) returns (j: nat)
    requires Lifetime(states, steps) && i < |states| && a in states[i].accepted
    ensures j < i && steps[j].AckLookUp?
    ensures steps[j].machine == a.machine && steps[j].commandId == a.commandId && steps[j].ok == a.ok
    ensures a.machine in states[j].desk.pending && states[j].desk.pending[a.machine] == a.waiter
  {
    assert Can(states[i - 1], steps[i - 1]) && states[i] == After(states[i - 1], steps[i - 1]);
    if a in states[i - 1].accepted {
      j := AckWasSent(states, steps, i - 1, a);
    } else {
      j := i - 1;
    }
  }

  /** A caller is told "applied" only after an ok ack that named its own command while it was pending. */
  lemma AppliedMeansAcked(states: seq<Floor>, steps: seq<Step>, i: nat, w: nat) returns (j: nat)
    requires Lifetime(states, steps) && i < |states| && w in states[i].desk.waiters
    requires !states[i].desk.waiters[w].phase.Waiting? && states[i].desk.waiters[w].phase.outcome == Applied
    ensures j < i && steps[j].AckLookUp? && steps[j].ok
    ensures steps[j].machine == states[i].desk.waiters[w].machine && steps[j].commandId == states[i].desk.waiters[w].id
    ensures steps[j].machine in states[j].desk.pending && states[j].desk.pending[steps[j].machine] == w
  {
    LifetimeOk(states, steps, i);
    assert Owes(states[i].desk.waiters[w]);
    assert Vouched(states[i].accepted, w);
    var a :| a in states[i].accepted && a.waiter == w && a.ok;
    j := AckWasSent(states, steps, i, a);
  }

  /** A waiting caller is never stranded: its command is still offered to the agent, or its answer is there. */
  lemma NeverStranded(states: seq<Floor>, steps: seq<Step>, i: nat, w: nat)
    requires Lifetime(states, steps) && i < |states| && w in states[i].desk.waiters
    requires states[i].desk.waiters[w].phase == Waiting
    ensures var d := states[i].desk;
            || (d.waiters[w].machine in d.pending && d.pending[d.waiters[w].machine] == w)
            || d.waiters[w].done.Some?
  {
    LifetimeOk(states, steps, i);
    hide CountersOk, AcksOk;
  }

  /**
    Cleanup never takes a newer command away: after any caller leaves, every other caller still
    there with its machine's newest command has that command on offer.
   */
  lemma CleanupKeepsNewer(states: seq<Floor>, steps: seq<Step>, i: nat, w: nat)
    requires Lifetime(states, steps) && i < |steps| && steps[i].Leave?
    requires w in states[i].desk.waiters && !states[i].desk.waiters[w].phase.Gone? && Newest(states[i].desk, w)
    requires w != steps[i].w
    ensures var d := states[i + 1].desk;
            && w in d.waiters && d.waiters[w].machine in d.pending
            && d.pending[d.waiters[w].machine] == w
  {
    LifetimeOk(states, steps, i);
    LifetimeOk(states, steps, i + 1);
    hide CountersOk, AcksOk;
  }

  /** Two commands of one lifetime carry one id exactly when their numbers agree modulo 2^64. */
  lemma IdsAreUnique(states: seq<Floor>, steps: seq<Step>, i: nat, a: nat, b: nat)
    requires Lifetime(states, steps) && i < |states| && a in states[i].desk.waiters && b in states[i].desk.waiters
    ensures states[i].desk.waiters[a].id == states[i].desk.waiters[b].id <==> a % U64 == b % U64
  {
    LifetimeOk(states, steps, i);
    Text.DecValue((a + 1) % U64);
    Text.DecValue((b + 1) % U64);
    Successors(a, b);
  }

  lemma Successors(a: nat, b: nat)
    ensures (a + 1) % U64 == (b + 1) % U64 <==> a % U64 == b % U64
  {
    var x, y := a % U64, b % U64;
    assert (a + 1) % U64 == if x + 1 == U64 then 0 else x + 1 by {
      assert a == U64 * (a / U64) + x;
    }
    assert (b + 1) % U64 == if y + 1 == U64 then 0 else y + 1 by {
      assert b == U64 * (b / U64) + y;
    }
  }

  /**
    A process restart starts the numbering again, so an ack meant for command `earlier` of the earlier
    lifetime releases a waiter of the new one exactly when the pending command has the same number.
   */
  lemma StaleAckAcrossRestart(states: seq<Floor>, steps: seq<Step>, i: nat, machine: string, earlier: nat)
    requires Lifetime(states, steps) && i < |states| && machine in states[i].desk.pending
    ensures Matches(states[i].desk, machine, Text.Dec((earlier + 1) % U64)) <==>
              states[i].desk.pending[machine] % U64 == earlier % U64
  {
    LifetimeOk(states, steps, i);
    var now := states[i].desk.pending[machine];
    Text.DecValue((now + 1) % U64);
    Text.DecValue((earlier + 1) % U64);
    Successors(now, earlier);
  }

  /* ---- what a caller is told ---- */

  /** This step sends an answer to the waiter: its own ack's handler, or a newer command for its machine. */
  predicate Sends(f: Floor, s: Step, w: nat) {
    && w in f.desk.waiters
    && (|| (s.AckSend? && s.handler in f.held && f.held[s.handler].waiter == w)
        || (s.Enqueue? && s.machine in f.desk.pending && f.desk.pending[s.machine] == w))
  }

  /** The answer sent: nil for an ok ack, the agent's error for a failed one, or that a newer command came. */
  predicate Says(f: Floor, s: Step, o: Outcome) {
    match s
    case AckSend(h) =>
      && h in f.held
      && (f.held[h].ok ==> o == Applied)
      && (!f.held[h].ok ==>
            var cause := if |f.held[h].error| > 0 then f.held[h].error else "agent reported failure";
            o == Refused("agent bootstrap failed for " + f.held[h].machine + ": " + cause))
    case Enqueue(_) => o == Refused("superseded by a newer command")
    case _ => false
  }

  ghost predicate NoneSent(states: seq<Floor>, steps: seq<Step>, i: nat, w: nat)
    requires i <= |states| && i <= |steps|
  {
    forall j :: 0 <= j < i ==> !Sends(states[j], steps[j], w)
  }

  ghost predicate FirstSaid(states: seq<Floor>, steps: seq<Step>, i: nat, w: nat, o: Outcome)
    requires i <= |states| && i <= |steps|
  {
    exists k :: 0 <= k < i && NoneSent(states, steps, k, w) && Sends(states[k], steps[k], w)
                && Says(states[k], steps[k], o)
  }

  /** While a caller waits, its channel holds the first answer sent to it, or none was. */
  lemma {:induction false} FirstAnswerStays(states: seq<Floor>, steps: seq<Step>, i: nat, w: nat)
    requires Lifetime(states, steps) && i <= |steps|
    ensures w !in states[i].desk.waiters ==> NoneSent(states, steps, i, w)
    ensures w in states[i].desk.waiters && states[i].desk.waiters[w].phase == Waiting ==>
              match states[i].desk.waiters[w].done
              case None => NoneSent(states, steps, i, w)
              case Some(o) => FirstSaid(states, steps, i, w, o)
  {
    if i > 0 {
      var f, s, g := states[i - 1], steps[i - 1], states[i];
      LifetimeOk(states, steps, i - 1);
      FirstAnswerStays(states, steps, i - 1, w);
      hide Can, After, FloorOk, Says, Sends;
      AnswerStep(f, s, w);
      if w in g.desk.waiters && g.desk.waiters[w].phase == Waiting && g.desk.waiters[w].done.Some? {
        var o := g.desk.waiters[w].done.value;
        if w in f.desk.waiters && f.desk.waiters[w].done == Some(o) {
          var k :| 0 <= k < i - 1 && NoneSent(states, steps, k, w) && Sends(states[k], steps[k], w)
            && Says(states[k], steps[k], o);
        } else {
          assert NoneSent(states, steps, i - 1, w) && Sends(f, s, w) && Says(f, s, o);
        }
      }
    }
  }

  lemma AnswerStep(f: Floor, s: Step, w: nat)
    requires FloorOk(f) && Can(f, s)
    ensures var g := After(f, s);
            && (w !in g.desk.waiters ==> w !in f.desk.waiters && !Sends(f, s, w))
            && (w in g.desk.waiters && w !in f.desk.waiters ==>
                  g.desk.waiters[w].done == None && !Sends(f, s, w))
            && (w in g.desk.waiters && w in f.desk.waiters && g.desk.waiters[w].phase == Waiting ==>
                  && f.desk.waiters[w].phase == Waiting
                  && (f.desk.waiters[w].done.Some? ==> g.desk.waiters[w].done == f.desk.waiters[w].done)
                  && (f.desk.waiters[w].done == None ==>
                        match g.desk.waiters[w].done
                        case None => !Sends(f, s, w)
                        case Some(o) => Sends(f, s, w) && Says(f, s, o)))
  {
    hide PendingOk, AcksOk;
  }

  /**
    What Enqueue returns. A caller that is back either gave up, and got that error, or took the first
    answer ever sent to it: nil if and only if that was an ok ack of its own command.
   */
  lemma EnqueueReturns(states: seq<Floor>, steps: seq<Step>, i: nat, w: nat) returns (k: nat)
    requires Lifetime(states, steps) && i < |states| && w in states[i].desk.waiters
    requires states[i].desk.waiters[w].phase != Waiting
    ensures k < i && (steps[k] == Take(w) || (steps[k].GiveUp? && steps[k].w == w))
    ensures var o := states[i].desk.waiters[w].phase.outcome;
            if steps[k].GiveUp? then o == Refused(steps[k].reason) else FirstSaid(states, steps, k, w, o)
  {
    var f, s := states[i - 1], steps[i - 1];
    LifetimeOk(states, steps, i - 1);
    ReturnStep(f, s, w);
    if w in f.desk.waiters && f.desk.waiters[w].phase != Waiting {
      k := EnqueueReturns(states, steps, i - 1, w);
    } else {
      k := i - 1;
      FirstAnswerStays(states, steps, k, w);
    }
  }

  lemma ReturnStep(f: Floor, s: Step, w: nat)
    requires FloorOk(f) && Can(f, s) && w in After(f, s).desk.waiters && After(f, s).desk.waiters[w].phase != Waiting
    ensures w in f.desk.waiters
    ensures var o := After(f, s).desk.waiters[w].phase.outcome;
            if f.desk.waiters[w].phase != Waiting then o == f.desk.waiters[w].phase.outcome
            else
              || (s == Take(w) && f.desk.waiters[w].done == Some(o))
              || (s.GiveUp? && s.w == w && o == Refused(s.reason))
  {
    hide PendingOk, AcksOk;
  }

  /** The ordinary exchange: a command is enqueued, its agent acks it, and the caller gets nil. */
  lemma SomeoneIsApplied(machine: string) returns (states: seq<Floor>, steps: seq<Step>)
    ensures Lifetime(states, steps) && |steps| == 5 && steps[0] == Enqueue(machine)
    ensures steps[1] == AckLookUp(0, machine, "1", true, "")
    ensures 0 in states[5].desk.waiters && states[5].desk.waiters[0] == Waiter(machine, "1", None, Gone(Applied))
  {
    assert Text.Dec(1) == "1";
    steps := [Enqueue(machine), AckLookUp(0, machine, "1", true, ""), AckSend(0), Take(0), Leave(0)];
    var s1 := After(EMPTY, steps[0]);
    var s2 := After(s1, steps[1]);
    var s3 := After(s2, steps[2]);
    var s4 := After(s3, steps[3]);
    states := [EMPTY, s1, s2, s3, s4, After(s4, steps[4])];
  }
}
