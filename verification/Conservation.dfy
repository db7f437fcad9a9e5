/**
  The kit over the AWS backend over the in-memory EC2: nothing is provisioned twice and records
  agree with live instances, through timeouts, late effects, reconciles, crashes and restarts.
 */
module Conservation {
  import opened Machines
  import opened Kit
  import opened Reconciliation
  import opened KitSystem
  import opened KitInvariants
  import opened KitHistory
  import opened Guarantees
  import opened Ec2
  import opened AwsBackend

  datatype Plant = Plant(u: Setup, provider: string)

  datatype World = World(
    k: Sys,
    fleet: Fleet,
    effects: map<nat, Effect>,     // by op number: the calls that have acted
    seen: set<seq<Instance>>)      // Describe listings the running process has read

  datatype Move =
    | Kit(l: KitSystem.Label)
    | Act(n: nat)
    | Read(listing: seq<Instance>)

  /* ---- the composed system ---- */

  ghost predicate Serving(s: Sys) {
    s.proc.Up? || (s.proc.Locked? && !s.proc.input.Boots())
  }

  /** The kit's own step, tied to what EC2 holds and did. */
  ghost predicate Grounded(p: Plant, w: World, l: KitSystem.Label) {
    match l
    case Begin(input) => input.Merge? ==> input.listing in w.seen
    case Boot(input) => input.Seeding? ==> Faithful(p.provider, w.fleet.instances, input.listing)
    case Applied(n) => n in w.effects
    case Returned(n, res) => n in w.k.calls && (res.Ok? ==> Honest(p, w.k.calls, w.effects, n, res))
    case _ => true
  }

  predicate Honest(p: Plant, calls: map<nat, Call>, effects: map<nat, Effect>, n: nat, res: BackendResult)
    requires n in calls && res.Ok?
  {
    && n in effects
    && (calls[n].task.kind == Create ==> effects[n].Launched? && res.host == HostRef(p.provider, effects[n].iid))
  }

  ghost predicate CanMove(p: Plant, w: World, v: Move) {
    match v
    case Kit(l) => Enabled(p.u, w.k, l) && Grounded(p, w, l)
    case Act(n) => n in w.k.calls && n !in w.effects
    case Read(list) => Serving(w.k) && Faithful(p.provider, w.fleet.instances, list)
  }

  function Moved(p: Plant, w: World, v: Move): World
    requires v.Kit? ==> Enabled(p.u, w.k, v.l)
    requires v.Act? ==> v.n in w.k.calls
  {
    match v
    case Kit(l) => w.(k := Next(p.u, w.k, l), seen := if l.Crash? then {} else w.seen)
    case Act(n) =>
      (match Perform(w.fleet, w.k.calls[n].task)
       case None => w
       case Some(done) => w.(fleet := done.0, effects := w.effects[n := done.1]))
    case Read(list) => w.(seen := w.seen + {list})
  }

  ghost predicate Untagged(f: Fleet) {
    forall iid :: iid in f.instances && Visible(f.instances[iid]) ==> f.instances[iid].cluster == ""
  }

  ghost predicate WorldRun(p: Plant, states: seq<World>, moves: seq<Move>) {
    && |states| == |moves| + 1
    && states[0].k == START && states[0].effects == map[] && states[0].seen == {} && InstancesOk(states[0].fleet)
    && forall i :: 0 <= i < |moves| ==>
         CanMove(p, states[i], moves[i]) && states[i + 1] == Moved(p, states[i], moves[i])
  }

  /* ---- the invariant ---- */

  /**
    What is watched over besides one instance per machine, which holds of every run: `free`, that each
    record has its own host, for fleets in which no live instance answers to a token of the kit; and
    `untagged`, that cluster tags agree too, for fleets without any to begin with.
   */
  datatype Watch = Watch(plant: Plant, free: bool, untagged: bool)

  predicate Owns(i: Ec2Instance, id: string) {
    Visible(i) && Owner(i) == id
  }

  ghost predicate Lives(f: Fleet, id: string) {
    exists iid :: iid in f.instances && Owns(f.instances[iid], id)
  }

  ghost predicate FleetOk(p: Watch, f: Fleet, effects: map<nat, Effect>) {
    InstancesOk(f) && (p.free ==> TokensFree(p.plant, f, effects))
  }

  ghost predicate InstancesOk(f: Fleet) {
    && (forall iid :: iid in f.instances ==> f.instances[iid].instanceId == iid && iid != "")
    && OneEach(f)
    && (forall c :: c > f.counter ==> FakeId(c) !in f.instances)
  }

  /** No live instance, and none to come, answers to the token of an operation that has not acted. */
  ghost predicate TokensFree(p: Plant, f: Fleet, effects: map<nat, Effect>) {
    forall n :: 0 < n && n !in effects && TokenOf(p, n) in f.byToken ==>
      NotFuture(f, f.byToken[TokenOf(p, n)]) && f.byToken[TokenOf(p, n)] !in f.instances
  }

  function TokenOf(p: Plant, n: nat): string {
    OpText(OpId(p.u.cfg.prefix, n))
  }

  ghost predicate OneEach(f: Fleet) {
    forall a, b :: a in f.instances && b in f.instances && SameOwner(f.instances[a], f.instances[b]) ==> a == b
  }

  predicate SameOwner(a: Ec2Instance, b: Ec2Instance) {
    Visible(a) && Visible(b) && Owner(a) == Owner(b)
  }

  /** The machine has this live instance or none. */
  ghost predicate Sole(f: Fleet, id: string, ref: string) {
    forall iid :: iid in f.instances && Owns(f.instances[iid], id) ==> iid == ref
  }

  /**
    No instance but the record's host is the machine's; where tokens are free that host is live,
    the machine's own, and tagged.
   */
  ghost predicate HostOk(p: Watch, f: Fleet, host: HostRef, id: string, cluster: string) {
    && host.provider == p.plant.provider && host.ref != "" && Sole(f, id, host.ref)
    && (p.free ==> host.ref in f.instances && Owns(f.instances[host.ref], id)
                   && (p.untagged ==> f.instances[host.ref].cluster == cluster))
  }

  /** A host the record may once have had: gone for good, or still the machine's own. */
  ghost predicate Mine(p: Watch, f: Fleet, host: HostRef, id: string) {
    p.free ==> host.Empty() || (NotFuture(f, host.ref) && (host.ref in f.instances ==> Owns(f.instances[host.ref], id)))
  }

  ghost predicate NotFuture(f: Fleet, ref: string) {
    forall c :: c > f.counter ==> ref != FakeId(c)
  }

  ghost predicate Agrees(p: Watch, d: Durable, f: Fleet, effects: map<nat, Effect>, id: string)
    requires id in d.machines
  {
    var m := d.machines[id];
    && Mine(p, f, m.host, id)
    && match m.state {
      case Idle => HostOk(p, f, m.host, id, "")
      case Configured => HostOk(p, f, m.host, id, m.cluster)
      case Failed => true
      case Speculative => !Lives(f, id)
      case Unspecified => false
      case _ =>
        && OpKey(id, KindOf(m.state)) in d.ops
        && AgreesInFlight(p, f, effects, m, id, d.ops[OpKey(id, KindOf(m.state))].n)
    }
  }

  ghost predicate AgreesInFlight(p: Watch, f: Fleet, effects: map<nat, Effect>, m: Machine, id: string, n: nat)
    requires IsTransitional(m.state)
  {
    match KindOf(m.state)
    case Create =>
      if n in effects then effects[n].Launched? && HostOk(p, f, HostRef(p.plant.provider, effects[n].iid), id, "")
      else !Lives(f, id)
    case Configure => HostOk(p, f, m.host, id, if n in effects then m.cluster else "")
    case Drain => HostOk(p, f, m.host, id, if n in effects then "" else m.cluster)
    case Delete => if n in effects then !Lives(f, id) else HostOk(p, f, m.host, id, "")
  }

  /** A call that has not acted yet: its machine still waits for it or has failed, and nothing else acts on it. */
  ghost predicate Pending(p: Watch, d: Durable, f: Fleet, n: nat, t: Task) {
    var id := t.machine.id;
    && id in d.machines && 0 < n && t.op == OpId(p.plant.u.cfg.prefix, n)
    && (d.machines[id].state == Failed || d.machines[id].state == Transitional(t.kind))
    && OpKey(id, t.kind) in d.ops && d.ops[OpKey(id, t.kind)] == t.op
    && t.machine.host == d.machines[id].host && t.machine.cluster == d.machines[id].cluster
    && (t.kind == Create ==> !Lives(f, id))
    && (t.kind != Create ==> HostLives(p, f, t.machine.host, id))
  }

  ghost predicate HostLives(p: Watch, f: Fleet, host: HostRef, id: string) {
    p.free ==> host.provider == p.plant.provider && host.ref in f.instances && Owns(f.instances[host.ref], id)
  }

  ghost predicate Tracked(d: Durable, f: Fleet) {
    forall iid :: iid in f.instances && Visible(f.instances[iid]) ==> Owner(f.instances[iid]) in d.machines
  }

  ghost predicate AllAgree(p: Watch, d: Durable, f: Fleet, effects: map<nat, Effect>) {
    forall id :: id in d.machines ==> Agrees(p, d, f, effects, id)
  }

  ghost predicate AllPending(p: Watch, d: Durable, f: Fleet, effects: map<nat, Effect>, calls: map<nat, Call>) {
    && (forall n :: n in calls && n !in effects ==> Pending(p, d, f, n, calls[n].task))
    && (forall a, b :: a in calls && a !in effects && b in calls && b !in effects && SameMachine(calls[a], calls[b]) ==>
          a == b)
  }

  predicate SameMachine(a: Call, b: Call) {
    a.task.machine.id == b.task.machine.id
  }

  ghost predicate EffectsOk(p: Watch, calls: map<nat, Call>, effects: map<nat, Effect>) {
    && (forall n :: n in effects ==> n in calls)
    && (forall n :: n in calls && calls[n].returned.Some? && calls[n].returned.value.Ok? ==>
          Honest(p.plant, calls, effects, n, calls[n].returned.value))
  }

  /** Merging the listing can add nothing but host-less slots. */
  ghost predicate Harmless(d: Durable, list: seq<Instance>) {
    forall e :: e in list ==> SlotLike(e) || (e.state == Idle && e.id in d.machines)
  }

  ghost predicate AllHarmless(d: Durable, seen: set<seq<Instance>>) {
    forall list :: list in seen ==> Harmless(d, list)
  }

  ghost predicate Linked(p: Watch, d: Durable, f: Fleet, effects: map<nat, Effect>, calls: map<nat, Call>) {
    Tracked(d, f) && AllAgree(p, d, f, effects) && AllPending(p, d, f, effects, calls)
  }

  ghost predicate InputHarmless(s: Sys) {
    s.proc.Locked? ==>
      match s.proc.input
      case Merge(list) => Harmless(s.disk, list)
      case Seeding(list) => Harmless(s.disk, list)
      case _ => true
  }

  /** Nothing seeded yet, or the seeding not saved yet. */
  ghost predicate Virgin(p: Watch, w: World) {
    && IsFresh(w.k.disk) && w.k.calls == map[] && w.seen == {} && (p.untagged ==> Untagged(w.fleet))
    && (w.k.proc.Down? || (w.k.proc.Locked? && w.k.proc.input.Seeding? && !w.k.proc.saved
                           && Faithful(p.plant.provider, w.fleet.instances, w.k.proc.input.listing)))
  }

  ghost predicate InStep(p: Watch, w: World) {
    Linked(p, w.k.disk, w.fleet, w.effects, w.k.calls) && AllHarmless(w.k.disk, w.seen) && InputHarmless(w.k)
  }

  ghost predicate WorldInv(p: Watch, w: World) {
    && KitInv(p.plant.u, w.k) && FleetOk(p, w.fleet, w.effects) && EffectsOk(p, w.k.calls, w.effects)
    && (Virgin(p, w) || InStep(p, w))
  }

  /* ---- EC2 acts ---- */

  /** All that differs between two fleets belongs to one machine, and a new instance has a new id. */
  ghost predicate OnlyTouches(f: Fleet, g: Fleet, id: string) {
    && f.counter <= g.counter
    && (forall iid :: iid in f.instances && !Owns(f.instances[iid], id) ==>
         iid in g.instances && g.instances[iid] == f.instances[iid])
    && (forall iid :: iid in g.instances && !Owns(g.instances[iid], id) ==>
         iid in f.instances && g.instances[iid] == f.instances[iid])
    && (forall iid :: iid in g.instances && iid !in f.instances ==>
         f.counter < g.counter && iid == FakeId(f.counter + 1))
  }

  /** No other machine gains an instance. */
  ghost predicate Spares(f: Fleet, g: Fleet, id: string) {
    forall iid :: iid in g.instances && !Owns(g.instances[iid], id) ==>
      && iid in f.instances && Visible(f.instances[iid]) == Visible(g.instances[iid])
      && Owner(f.instances[iid]) == Owner(g.instances[iid])
  }

  ghost predicate Touches(p: Watch, f: Fleet, g: Fleet, id: string) {
    Spares(f, g, id) && (p.free ==> OnlyTouches(f, g, id))
  }

  lemma OthersKeepFleet(p: Watch, f: Fleet, g: Fleet, id: string, other: string, host: HostRef, cluster: string)
    requires Touches(p, f, g, id) && other != id
    ensures Lives(g, other) ==> Lives(f, other)
    ensures HostOk(p, f, host, other, cluster) ==> HostOk(p, g, host, other, cluster)
    ensures HostLives(p, f, host, other) ==> HostLives(p, g, host, other)
    ensures Mine(p, f, host, other) ==> Mine(p, g, host, other)
  {
    assert Lives(g, other) ==> Lives(f, other);
    assert Sole(f, other, host.ref) ==> Sole(g, other, host.ref);
    if p.free {
      OthersKeepHosts(p, f, g, id, other, host);
    }
  }

  lemma OthersKeepHosts(p: Watch, f: Fleet, g: Fleet, id: string, other: string, host: HostRef)
    requires OnlyTouches(f, g, id) && other != id
    ensures Mine(p, f, host, other) ==> Mine(p, g, host, other)
    ensures host.ref in f.instances && Owns(f.instances[host.ref], other) ==>
              host.ref in g.instances && g.instances[host.ref] == f.instances[host.ref]
  {
  }

  lemma OthersAgree(p: Watch, d: Durable, f: Fleet, g: Fleet, effects: map<nat, Effect>, n: nat, e: Effect, key: OpKey,
      other: string)
    requires OpsDistinct(d.ops) && key in d.ops && d.ops[key].n == n && other != key.id
    requires Touches(p, f, g, key.id) && other in d.machines && Agrees(p, d, f, effects, other)
    ensures Agrees(p, d, g, effects[n := e], other)
  {
    hide Touches, Lives, HostOk, Mine;
    var m := d.machines[other];
    OthersKeepFleet(p, f, g, key.id, other, m.host, "");
    OthersKeepFleet(p, f, g, key.id, other, m.host, m.cluster);
    if IsTransitional(m.state) {
      var own := OpKey(other, KindOf(m.state));
      assert own in d.ops && d.ops[own].n != n;
      if m.state == Creating && d.ops[own].n in effects {
        OthersKeepFleet(p, f, g, key.id, other, HostRef(p.plant.provider, effects[d.ops[own].n].iid), "");
      }
    }
  }

  lemma OthersPending(p: Watch, d: Durable, f: Fleet, g: Fleet, id: string, n: nat, t: Task)
    requires Touches(p, f, g, id) && t.machine.id != id && Pending(p, d, f, n, t)
    ensures Pending(p, d, g, n, t)
  {
    hide Touches, Lives, HostLives;
    OthersKeepFleet(p, f, g, id, t.machine.id, t.machine.host, "");
  }

  /** A pending Create gives its machine an instance for the first time; where tokens are free a new one. */
  lemma CreateActs(p: Watch, d: Durable, f: Fleet, effects: map<nat, Effect>, n: nat, t: Task)
    requires FleetOk(p, f, effects) && n !in effects && Pending(p, d, f, n, t) && t.kind == Create
    requires Agrees(p, d, f, effects, t.machine.id) && t.machine.id != ""
    ensures Perform(f, t).Some?
    ensures var (g, e) := Perform(f, t).value;
            && e.Launched? && (p.free ==> e.iid !in f.instances)
            && FleetOk(p, g, effects[n := e]) && Touches(p, f, g, t.machine.id)
            && Agrees(p, d, g, effects[n := e], t.machine.id)
  {
    hide InstancesOk, TokensFree, Touches, NewInstance;
    var (g, e) := Perform(f, t).value;
    if Replays(f, Spec(t)) {
      ReplayActs(p, f, effects, n, t);
    } else {
      LaunchActs(p, f, effects, n, t);
    }
    MineAfter(p, f, g, d.machines[t.machine.id].host, t.machine.id);
    hide FleetOk, Perform, Replays;
  }

  /** A token still held by a live instance, which cannot happen where tokens are free, hands that one over. */
  lemma ReplayActs(p: Watch, f: Fleet, effects: map<nat, Effect>, n: nat, t: Task)
    requires FleetOk(p, f, effects) && n !in effects && 0 < n && t.op == OpId(p.plant.u.cfg.prefix, n)
    requires t.kind == Create && Replays(f, Spec(t)) && !Lives(f, t.machine.id)
    ensures var (g, e) := Perform(f, t).value;
            && !p.free && e.Launched? && FleetOk(p, g, effects[n := e]) && Touches(p, f, g, t.machine.id)
            && HostOk(p, g, HostRef(p.plant.provider, e.iid), t.machine.id, "")
  {
    assert TokenOf(p.plant, n) == Spec(t).token;
  }

  lemma LaunchActs(p: Watch, f: Fleet, effects: map<nat, Effect>, n: nat, t: Task)
    requires FleetOk(p, f, effects) && t.op == OpId(p.plant.u.cfg.prefix, n)
    requires t.kind == Create && !Replays(f, Spec(t)) && !Lives(f, t.machine.id) && t.machine.id != ""
    ensures var (g, e) := Perform(f, t).value;
            && e.Launched? && e.iid !in f.instances && FleetOk(p, g, effects[n := e]) && Touches(p, f, g, t.machine.id)
            && HostOk(p, g, HostRef(p.plant.provider, e.iid), t.machine.id, "")
  {
    var (g, e) := Perform(f, t).value;
    var inst := NewInstance(f, Spec(t));
    assert inst.instanceId == FakeId(f.counter + 1) && inst.instanceId !in f.instances && Owns(inst, t.machine.id);
    assert g.instances == f.instances[inst.instanceId := inst];
    LaunchKeepsFleet(p, f, effects, n, t);
    hide FleetOk, NewInstance, FakeId;
  }

  lemma MineAfter(p: Watch, f: Fleet, g: Fleet, host: HostRef, id: string)
    requires Mine(p, f, host, id) && Touches(p, f, g, id)
    ensures Mine(p, g, host, id)
  {
  }

  lemma LaunchKeepsFleet(p: Watch, f: Fleet, effects: map<nat, Effect>, n: nat, t: Task)
    requires FleetOk(p, f, effects) && t.op == OpId(p.plant.u.cfg.prefix, n) && !Lives(f, t.machine.id)
    requires t.machine.id != ""
    requires !Replays(f, Spec(t)) && t.kind == Create
    ensures var (g, e) := Perform(f, t).value; FleetOk(p, g, effects[n := e]) && Touches(p, f, g, t.machine.id)
  {
    hide OneEach;
    var (g, e) := Perform(f, t).value;
    var inst := NewInstance(f, Spec(t));
    assert g == Fleet(f.counter + 1, f.instances[inst.instanceId := inst],
                      f.byToken[TokenOf(p.plant, n) := inst.instanceId]);
    assert inst.instanceId == FakeId(f.counter + 1) && inst.instanceId !in f.instances && Owns(inst, t.machine.id);
    LaunchedInstances(f, g, inst);
    if p.free {
      LaunchedTokens(p.plant, f, g, effects, n, e, inst.instanceId);
    }
    hide InstancesOk, TokensFree, NewInstance, FakeId;
  }

  lemma LaunchedInstances(f: Fleet, g: Fleet, inst: Ec2Instance)
    requires InstancesOk(f) && inst.instanceId == FakeId(f.counter + 1) && !Lives(f, Owner(inst))
    requires g.counter == f.counter + 1 && g.instances == f.instances[inst.instanceId := inst]
    ensures InstancesOk(g)
  {
    forall c | c > g.counter
      ensures FakeId(c) !in g.instances
    {
      if FakeId(c) == FakeId(f.counter + 1) {
        FakeIdInjective(c, f.counter + 1);
      }
    }
    assert FakeId(f.counter + 1)[0] == 'i';
    hide FakeId;
  }

  lemma LaunchedTokens(p: Plant, f: Fleet, g: Fleet, effects: map<nat, Effect>, n: nat, e: Effect, iid: string)
    requires TokensFree(p, f, effects) && iid == FakeId(f.counter + 1) && g.counter == f.counter + 1
    requires g.instances.Keys == f.instances.Keys + {iid} && g.byToken == f.byToken[TokenOf(p, n) := iid]
    ensures TokensFree(p, g, effects[n := e])
  {
    hide FakeId, OpText;
    forall k | 0 < k && k !in effects[n := e] && TokenOf(p, k) in g.byToken
      ensures NotFuture(g, g.byToken[TokenOf(p, k)]) && g.byToken[TokenOf(p, k)] !in g.instances
    {
      if TokenOf(p, k) == TokenOf(p, n) {
        OpTextInjective(OpId(p.u.cfg.prefix, k), OpId(p.u.cfg.prefix, n));
      }
      assert NotFuture(f, f.byToken[TokenOf(p, k)]);
    }
  }

  /**
    A pending Configure, Drain or Delete finds its instance where tokens are free, and never harms
    another machine's count.
   */
  lemma HostActs(p: Watch, d: Durable, f: Fleet, effects: map<nat, Effect>, n: nat, t: Task)
    requires FleetOk(p, f, effects) && Pending(p, d, f, n, t) && t.kind != Create && n !in effects
    requires Agrees(p, d, f, effects, t.machine.id)
    ensures p.free ==> Perform(f, t).Some?
    ensures Perform(f, t).Some? ==>
              var (g, e) := Perform(f, t).value;
              && e == Done
              && FleetOk(p, g, effects[n := e]) && Touches(p, f, g, t.machine.id)
              && Agrees(p, d, g, effects[n := e], t.machine.id)
  {
    hide InstancesOk, TokensFree, OnlyTouches, Spares;
    var ref, id := t.machine.host.ref, t.machine.id;
    if p.free {
      HostIsSet(p, f, effects, t.machine.host, id);
    }
    if Perform(f, t).Some? {
      MoreEffects(p, f, effects, n, Done);
      if t.kind == Delete {
        TerminateTouches(p, f, effects[n := Done], ref, id);
      } else {
        RetagTouches(p, f, effects[n := Done], ref, id, if t.kind == Drain then "" else t.machine.cluster);
      }
      var g := Perform(f, t).value.0;
      MineAfter(p, f, g, t.machine.host, id);
      hide FleetOk, Touches, Mine, Owns;
    }
  }

  lemma HostIsSet(p: Watch, f: Fleet, effects: map<nat, Effect>, host: HostRef, id: string)
    requires FleetOk(p, f, effects) && p.free && HostLives(p, f, host, id)
    ensures host.ref in f.instances && host.ref != ""
  {
  }

  lemma MoreEffects(p: Watch, f: Fleet, effects: map<nat, Effect>, n: nat, e: Effect)
    requires FleetOk(p, f, effects)
    ensures FleetOk(p, f, effects[n := e])
  {
  }

  lemma TerminateTouches(p: Watch, f: Fleet, effects: map<nat, Effect>, ref: string, id: string)
    requires FleetOk(p, f, effects) && ref in f.instances && (p.free ==> Owns(f.instances[ref], id))
    ensures var g := Terminate(f, ref).value;
            FleetOk(p, g, effects) && Touches(p, f, g, id) && (Sole(f, id, ref) ==> !Lives(g, id))
  {
  }

  lemma RetagTouches(p: Watch, f: Fleet, effects: map<nat, Effect>, ref: string, id: string, cluster: string)
    requires FleetOk(p, f, effects) && ref in f.instances && (p.free ==> Owns(f.instances[ref], id))
    ensures var g := SetCluster(f, ref, cluster).value;
            && FleetOk(p, g, effects) && Touches(p, f, g, id) && (Sole(f, id, ref) ==> Sole(g, id, ref))
            && ref in g.instances && g.instances[ref].cluster == cluster && (p.free ==> Owns(g.instances[ref], id))
  {
  }

  lemma ActKeeps(p: Watch, d: Durable, f: Fleet, effects: map<nat, Effect>, calls: map<nat, Call>, n: nat)
    requires DiskOk(d) && FleetOk(p, f, effects) && EffectsOk(p, calls, effects) && Linked(p, d, f, effects, calls)
    requires n in calls && n !in effects
    ensures p.free ==> Perform(f, calls[n].task).Some?
    ensures Perform(f, calls[n].task).Some? ==>
              var (g, e) := Perform(f, calls[n].task).value;
              && FleetOk(p, g, effects[n := e]) && EffectsOk(p, calls, effects[n := e])
              && Linked(p, d, g, effects[n := e], calls)
              && Touches(p, f, g, calls[n].task.machine.id)
              && (p.free && calls[n].task.kind == Create ==> e.Launched? && e.iid !in f.instances)
  {
    hide FleetOk, Touches, Agrees, Perform, Lives, InShape, OpsMinted, OpsCover;
    var t := calls[n].task;
    var id := t.machine.id;
    assert Pending(p, d, f, n, t) && Agrees(p, d, f, effects, id) && InShape(d.machines[id]) && d.machines[id].id == id;
    IdIsSet(d, id);
    if t.kind == Create {
      CreateActs(p, d, f, effects, n, t);
    } else {
      HostActs(p, d, f, effects, n, t);
    }
    if Perform(f, t).Some? {
      var (g, e) := Perform(f, t).value;
      forall other | other in d.machines && other != id
        ensures Agrees(p, d, g, effects[n := e], other)
      {
        OthersAgree(p, d, f, g, effects, n, e, OpKey(id, t.kind), other);
      }
      forall k | k in calls && k !in effects[n := e]
        ensures Pending(p, d, g, k, calls[k].task)
      {
        assert !SameMachine(calls[k], calls[n]);
        OthersPending(p, d, f, g, id, k, calls[k].task);
      }
      TouchedTracked(p, d, f, g, id);
    }
  }

  lemma IdIsSet(d: Durable, id: string)
    requires DiskOk(d) && id in d.machines
    ensures id != ""
  {
    assert InShape(d.machines[id]) && d.machines[id].id == id;
  }

  lemma TouchedTracked(p: Watch, d: Durable, f: Fleet, g: Fleet, id: string)
    requires Tracked(d, f) && Touches(p, f, g, id) && id in d.machines
    ensures Tracked(d, g)
  {
    forall iid | iid in g.instances && Visible(g.instances[iid])
      ensures Owner(g.instances[iid]) in d.machines
    {
      if !Owns(g.instances[iid], id) {
        assert iid in f.instances && Owner(f.instances[iid]) == Owner(g.instances[iid]);
      }
    }
  }

  /* ---- the kit commits ---- */

  /** The step leaves this machine's overlay and op ids alone. */
  ghost predicate SameFor(d: Durable, after: Durable, id: string) {
    && id in d.machines && id in after.machines && SameOverlay(after.machines[id], d.machines[id])
    && forall k: Kind :: OpKey(id, k) in d.ops ==>
         OpKey(id, k) in after.ops && after.ops[OpKey(id, k)] == d.ops[OpKey(id, k)]
  }

  lemma SameForAgrees(p: Watch, d: Durable, after: Durable, f: Fleet, effects: map<nat, Effect>, id: string)
    requires SameFor(d, after, id) && Agrees(p, d, f, effects, id)
    ensures Agrees(p, after, f, effects, id)
  {
    hide Mine, HostOk, Lives;
  }

  /** Stays, or fails where it stood: a call that has not acted yet may still act. */
  ghost predicate StaysOrFails(d: Durable, after: Durable, id: string) {
    && id in d.machines && id in after.machines
    && (after.machines[id].state == d.machines[id].state || after.machines[id].state == Failed)
    && after.machines[id].host == d.machines[id].host && after.machines[id].cluster == d.machines[id].cluster
    && forall k: Kind :: OpKey(id, k) in d.ops ==>
         OpKey(id, k) in after.ops && after.ops[OpKey(id, k)] == d.ops[OpKey(id, k)]
  }

  lemma PendingStays(p: Watch, d: Durable, after: Durable, f: Fleet, n: nat, t: Task)
    requires Pending(p, d, f, n, t) && StaysOrFails(d, after, t.machine.id)
    ensures Pending(p, after, f, n, t)
  {
    hide Lives, HostLives;
  }

  ghost predicate Grows(d: Durable, after: Durable) {
    forall id :: id in d.machines ==> id in after.machines
  }

  lemma SectionGrows(cfg: Config, b: Mem, input: Input)
    requires MemOk(b) && InputOk(cfg, b, input)
    ensures Grows(b.d, RunSection(cfg, b, input).mem.d)
  {
    hide MemOk, InputOk, RunSection, Moves;
    SectionMoves(cfg, b, input);
  }

  lemma SectionAgrees(p: Watch, s: Sys, f: Fleet, effects: map<nat, Effect>, id: string)
    requires StoreOk(p.plant.u.cfg, s) && TasksOk(s) && CallsOk(s) && s.proc.Locked? && !s.proc.saved
    requires FleetOk(p, f, effects) && EffectsOk(p, s.calls, effects) && Linked(p, s.disk, f, effects, s.calls)
    requires InputHarmless(s)
    requires id in s.proc.sec.mem.d.machines
    ensures Agrees(p, s.proc.sec.mem.d, f, effects, id)
  {
    hide Linked, FleetOk, TasksOk, CallsOk, EffectsOk, MemOk, Agrees, Harmless, Dispatch, Complete, Reconcile,
        RecoveredTo, Loaded, Seedable, IsFresh;
    var b := s.proc.before;
    match s.proc.input
    case Rpc(r) =>
      AgreesNow(p, b.d, f, effects, s.calls, id);
      NextIsUnused(p, s, effects);
      DispatchAgrees(p, b, r, f, effects, id);
    case Finish(t, res) =>
      AgreesNow(p, b.d, f, effects, s.calls, id);
      FinishAgrees(p, s, t, res, f, effects, id);
    case Merge(list) => MergeAgrees(p, b, list, f, effects, s.calls, id);
    case Seeding(list) => MergeAgrees(p, b, list, f, effects, s.calls, id);
    case Recovering(after) =>
      AgreesNow(p, b.d, f, effects, s.calls, id);
      RecoverAgrees(p, b, after, f, effects, id);
  }

  lemma AgreesNow(p: Watch, d: Durable, f: Fleet, effects: map<nat, Effect>, calls: map<nat, Call>, id: string)
    requires Linked(p, d, f, effects, calls)
    ensures id in d.machines ==> Agrees(p, d, f, effects, id)
  {
  }

  lemma NextIsUnused(p: Watch, s: Sys, effects: map<nat, Effect>)
    requires CallsOk(s) && EffectsOk(p, s.calls, effects)
    ensures s.disk.nextOp + 1 !in effects
  {
  }

  lemma DispatchAgrees(p: Watch, b: Mem, r: Request, f: Fleet, effects: map<nat, Effect>, id: string)
    requires MemOk(b) && b.d.nextOp + 1 !in effects && id in Dispatch(p.plant.u.cfg, b, r).mem.d.machines
    requires id in b.d.machines ==> Agrees(p, b.d, f, effects, id)
    ensures Agrees(p, Dispatch(p.plant.u.cfg, b, r).mem.d, f, effects, id)
  {
    hide Agrees, MemOk, Dispatch;
    DispatchShape(p.plant.u.cfg, b, r);
    var after := Dispatch(p.plant.u.cfg, b, r).mem.d;
    if Dispatch(p.plant.u.cfg, b, r).launched.Some? && id == r.id {
      AcceptedAgrees(p, b, r, f, effects);
    } else {
      SameForAgrees(p, b.d, after, f, effects, id);
    }
  }

  lemma AcceptedAgrees(p: Watch, b: Mem, r: Request, f: Fleet, effects: map<nat, Effect>)
    requires MemOk(b) && b.d.nextOp + 1 !in effects && Dispatch(p.plant.u.cfg, b, r).launched.Some?
    requires Agrees(p, b.d, f, effects, r.id)
    ensures r.id in Dispatch(p.plant.u.cfg, b, r).mem.d.machines
    ensures Agrees(p, Dispatch(p.plant.u.cfg, b, r).mem.d, f, effects, r.id)
  {
    hide HostOk, Mine, Lives, OpsOk, CursorOk;
    assert InShape(b.d.machines[r.id]);
  }

  lemma FinishAgrees(p: Watch, s: Sys, t: Task, res: BackendResult, f: Fleet, effects: map<nat, Effect>, id: string)
    requires StoreOk(p.plant.u.cfg, s) && TasksOk(s) && CallsOk(s) && s.proc.Locked? && !s.proc.saved
    requires s.proc.input == Finish(t, res)
    requires EffectsOk(p, s.calls, effects) && FleetOk(p, f, effects)
    requires id in s.disk.machines ==> Agrees(p, s.disk, f, effects, id)
    requires id in s.proc.sec.mem.d.machines
    ensures Agrees(p, s.proc.sec.mem.d, f, effects, id)
  {
    hide Agrees, FleetOk, EffectsOk, Drives, MemOk;
    var b := s.proc.before;
    assert Drives(b.d, t.op.n, t);
    if id == t.machine.id {
      FinishJudged(p, s, t, res, effects);
      SettledAgrees(p, b, t, res, f, effects);
    } else {
      CompleteElsewhere(b, t, res, id);
      SameForAgrees(p, b.d, Complete(b, t, res).mem.d, f, effects, id);
    }
  }

  lemma CompleteElsewhere(b: Mem, t: Task, res: BackendResult, id: string)
    requires id in Complete(b, t, res).mem.d.machines && id != t.machine.id
    ensures SameFor(b.d, Complete(b, t, res).mem.d, id)
  {
  }

  lemma FinishJudged(p: Watch, s: Sys, t: Task, res: BackendResult, effects: map<nat, Effect>)
    requires TasksOk(s) && CallsOk(s) && s.proc.Locked? && !s.proc.saved && s.proc.input == Finish(t, res)
    requires EffectsOk(p, s.calls, effects)
    ensures res.Ok? ==> t.op.n in effects
    ensures res.Ok? && t.kind == Create ==>
              effects[t.op.n].Launched? && res.host == HostRef(p.plant.provider, effects[t.op.n].iid)
  {
    hide Live;
  }

  lemma SettledAgrees(p: Watch, b: Mem, t: Task, res: BackendResult, f: Fleet, effects: map<nat, Effect>)
    requires Drives(b.d, t.op.n, t) && FleetOk(p, f, effects) && Agrees(p, b.d, f, effects, t.machine.id)
    requires res.Ok? ==> t.op.n in effects
    requires res.Ok? && t.kind == Create ==>
               effects[t.op.n].Launched? && res.host == HostRef(p.plant.provider, effects[t.op.n].iid)
    ensures var after := Complete(b, t, res).mem.d;
            t.machine.id in after.machines && Agrees(p, after, f, effects, t.machine.id)
  {
    hide Lives, OneEach, Owns;
    var id := t.machine.id;
    if res.Ok? && t.kind == Create {
      HostIsMine(p, f, effects, res.host, id, "");
    }
    hide FleetOk, Mine;
  }

  lemma HostIsMine(p: Watch, f: Fleet, effects: map<nat, Effect>, host: HostRef, id: string, cluster: string)
    requires FleetOk(p, f, effects) && HostOk(p, f, host, id, cluster)
    ensures Mine(p, f, host, id) && !host.Empty()
  {
  }

  lemma RecoverAgrees(p: Watch, b: Mem, after: Mem, f: Fleet, effects: map<nat, Effect>, id: string)
    requires RecoveredTo(b, after) && id in after.d.machines
    requires id in b.d.machines ==> Agrees(p, b.d, f, effects, id)
    ensures Agrees(p, after.d, f, effects, id)
  {
    hide InFlight, Mine, HostOk, Lives;
  }

  lemma MergeAgrees(p: Watch, b: Mem, list: seq<Instance>, f: Fleet, effects: map<nat, Effect>, calls: map<nat, Call>,
      id: string)
    requires Linked(p, b.d, f, effects, calls) && Harmless(b.d, list)
    requires id in Reconcile(p.plant.u.cfg, b, list).d.machines
    ensures Agrees(p, Reconcile(p.plant.u.cfg, b, list).d, f, effects, id)
  {
    hide AllAgree, AllPending, Agrees;
    if id in b.d.machines {
      KeepsOverlay(p.plant.u.cfg, b, list);
      AgreesNow(p, b.d, f, effects, calls, id);
      SameForAgrees(p, b.d, Reconcile(p.plant.u.cfg, b, list).d, f, effects, id);
    } else {
      NewcomerIsSlot(p.plant.u.cfg, b, list, id);
      assert !Lives(f, id);
      SlotAgrees(p, Reconcile(p.plant.u.cfg, b, list).d, f, effects, id);
    }
  }

  lemma SlotAgrees(p: Watch, d: Durable, f: Fleet, effects: map<nat, Effect>, id: string)
    requires id in d.machines && d.machines[id].state == Speculative && d.machines[id].host == NO_HOST && !Lives(f, id)
    ensures Agrees(p, d, f, effects, id)
  {
  }

  lemma {:induction false} NewcomerIsSlot(cfg: Config, m: Mem, list: seq<Instance>, id: string)
    requires id !in m.d.machines && id in Reconcile(cfg, m, list).d.machines
    requires forall e :: e in list ==> SlotLike(e) || (e.state == Idle && e.id in m.d.machines)
    ensures var rec := Reconcile(cfg, m, list).d.machines[id]; rec.state == Speculative && rec.host == NO_HOST
  {
    if |list| > 0 {
      var init := list[..|list| - 1];
      assert list[|list| - 1] in list;
      if id in Reconcile(cfg, m, init).d.machines {
        NewcomerIsSlot(cfg, m, init, id);
      }
    }
  }

  lemma SectionPending(p: Watch, s: Sys, f: Fleet, effects: map<nat, Effect>, n: nat)
    requires StoreOk(p.plant.u.cfg, s) && TasksOk(s) && CallsOk(s) && s.proc.Locked? && !s.proc.saved
    requires EffectsOk(p, s.calls, effects) && n in s.calls && n !in effects
    requires Pending(p, s.disk, f, n, s.calls[n].task)
    ensures Pending(p, s.proc.sec.mem.d, f, n, s.calls[n].task)
  {
    hide TasksOk, CallsOk, EffectsOk, MemOk, Dispatch, Complete, Reconcile, RecoveredTo, Loaded, Seedable, IsFresh,
        StaysOrFails, Pending;
    var b, id := s.proc.before, s.calls[n].task.machine.id;
    match s.proc.input
    case Rpc(r) => DispatchStays(p, b, r, f, n, s.calls[n].task);
    case Finish(t, res) => FinishStays(p, s, t, res, f, effects, n);
    case Merge(list) => MergeStays(p, b, list, f, n, s.calls[n].task);
    case Seeding(list) => MergeStays(p, b, list, f, n, s.calls[n].task);
    case Recovering(after) => RecoverStays(p, b, after, f, n, s.calls[n].task);
  }

  lemma DispatchStays(p: Watch, b: Mem, r: Request, f: Fleet, n: nat, t: Task)
    requires Pending(p, b.d, f, n, t)
    ensures Pending(p, Dispatch(p.plant.u.cfg, b, r).mem.d, f, n, t)
  {
    WaitingStays(p.plant.u.cfg, b, r, t);
    hide Dispatch;
    PendingStays(p, b.d, Dispatch(p.plant.u.cfg, b, r).mem.d, f, n, t);
  }

  lemma WaitingStays(cfg: Config, b: Mem, r: Request, t: Task)
    requires t.machine.id in b.d.machines
    requires b.d.machines[t.machine.id].state == Failed || b.d.machines[t.machine.id].state == Transitional(t.kind)
    ensures StaysOrFails(b.d, Dispatch(cfg, b, r).mem.d, t.machine.id)
  {
    hide Dispatch;
    DispatchShape(cfg, b, r);
  }

  lemma MergeStays(p: Watch, b: Mem, list: seq<Instance>, f: Fleet, n: nat, t: Task)
    requires Pending(p, b.d, f, n, t)
    ensures Pending(p, Reconcile(p.plant.u.cfg, b, list).d, f, n, t)
  {
    KeepsOverlay(p.plant.u.cfg, b, list);
    PendingStays(p, b.d, Reconcile(p.plant.u.cfg, b, list).d, f, n, t);
  }

  lemma RecoverStays(p: Watch, b: Mem, after: Mem, f: Fleet, n: nat, t: Task)
    requires RecoveredTo(b, after) && Pending(p, b.d, f, n, t)
    ensures Pending(p, after.d, f, n, t)
  {
    hide InFlight;
    PendingStays(p, b.d, after.d, f, n, t);
  }

  lemma FinishStays(p: Watch, s: Sys, t: Task, res: BackendResult, f: Fleet, effects: map<nat, Effect>, n: nat)
    requires StoreOk(p.plant.u.cfg, s) && TasksOk(s) && CallsOk(s) && s.proc.Locked? && !s.proc.saved
    requires s.proc.input == Finish(t, res)
    requires EffectsOk(p, s.calls, effects) && n in s.calls && n !in effects
    requires Pending(p, s.disk, f, n, s.calls[n].task)
    ensures Pending(p, s.proc.sec.mem.d, f, n, s.calls[n].task)
  {
    hide EffectsOk, MemOk, CallsOk, Drives, Pending, Complete;
    assert Drives(s.disk, t.op.n, t);
    FinishJudged(p, s, t, res, effects);
    SettledStays(p, s.proc.before, t, res, f, effects, n, s.calls[n].task);
  }

  lemma SettledStays(p: Watch, b: Mem, t: Task, res: BackendResult, f: Fleet, effects: map<nat, Effect>, n: nat,
      waiting: Task)
    requires Drives(b.d, t.op.n, t) && Pending(p, b.d, f, n, waiting) && n !in effects
    requires (res.Ok? ==> t.op.n in effects)
    ensures Pending(p, Complete(b, t, res).mem.d, f, n, waiting)
  {
    hide Lives, HostLives;
    PendingStays(p, b.d, Complete(b, t, res).mem.d, f, n, waiting);
  }

  lemma CommitKeepsLinked(p: Watch, s: Sys, f: Fleet, effects: map<nat, Effect>)
    requires KitInv(p.plant.u, s) && Enabled(p.plant.u, s, Commit)
    requires FleetOk(p, f, effects) && EffectsOk(p, s.calls, effects) && Linked(p, s.disk, f, effects, s.calls)
    requires InputHarmless(s)
    ensures Linked(p, s.proc.sec.mem.d, f, effects, s.calls) && Grows(s.disk, s.proc.sec.mem.d)
  {
    hide StoreOk, TasksOk, CallsOk, HandedOk, TokensOk, BindingsOk, ReadyOk, FleetOk, EffectsOk, InputHarmless, Agrees,
        Pending;
    var d := s.proc.sec.mem.d;
    forall id | id in d.machines
      ensures Agrees(p, d, f, effects, id)
    {
      SectionAgrees(p, s, f, effects, id);
    }
    forall n | n in s.calls && n !in effects
      ensures Pending(p, d, f, n, s.calls[n].task)
    {
      SectionPending(p, s, f, effects, n);
    }
    StoreGrows(p.plant.u.cfg, s);
  }

  lemma StoreGrows(cfg: Config, s: Sys)
    requires StoreOk(cfg, s) && s.proc.Locked? && !s.proc.saved
    ensures Grows(s.disk, s.proc.sec.mem.d)
  {
    hide MemOk, InputOk, RunSection;
    SectionGrows(cfg, s.proc.before, s.proc.input);
  }

  lemma GrowsKeepsHarmless(d: Durable, after: Durable, seen: set<seq<Instance>>)
    requires AllHarmless(d, seen) && Grows(d, after)
    ensures AllHarmless(after, seen)
  {
  }

  /* ---- seeding ---- */

  lemma SeedAgrees(p: Watch, b: Mem, list: seq<Instance>, f: Fleet, id: string)
    requires b.d.machines == map[] && Seedable(p.plant.u.cfg, list) && Faithful(p.plant.provider, f.instances, list)
    requires FleetOk(p, f, map[]) && (p.untagged ==> Untagged(f)) && id in Reconcile(p.plant.u.cfg, b, list).d.machines
    ensures Agrees(p, Reconcile(p.plant.u.cfg, b, list).d, f, map[], id)
  {
    hide Lives, FleetOk;
    Pointwise(p.plant.u.cfg, b, list, id);
    var e := Entry(p.plant.u.cfg, list, id).value;
    EntryIsMember(p.plant.u.cfg, list, id, e);
    if e.state == Speculative {
      SlotMeansNone(p, list, f, e);
    } else {
      BackedIsHost(p, f, e);
    }
  }

  lemma BackedIsHost(p: Watch, f: Fleet, e: Instance)
    requires FleetOk(p, f, map[]) && (p.untagged ==> Untagged(f)) && BackedBy(p.plant.provider, f.instances, e)
    ensures HostOk(p, f, e.host, e.id, "") && Mine(p, f, e.host, e.id)
  {
    assert Owns(f.instances[e.host.ref], e.id);
  }

  lemma SlotMeansNone(p: Watch, list: seq<Instance>, f: Fleet, e: Instance)
    requires DistinctIds(list) && Faithful(p.plant.provider, f.instances, list) && e in list && e.state == Speculative
    ensures !Lives(f, e.id)
  {
    assert !ListedIdle(list, e.id);
  }

  lemma SeedTracks(p: Watch, b: Mem, list: seq<Instance>, f: Fleet)
    requires Seedable(p.plant.u.cfg, list) && Faithful(p.plant.provider, f.instances, list)
    ensures Tracked(Reconcile(p.plant.u.cfg, b, list).d, f) && Harmless(Reconcile(p.plant.u.cfg, b, list).d, list)
  {
    forall e | e in list
      ensures e.id in Reconcile(p.plant.u.cfg, b, list).d.machines
    {
      EntryIsMember(p.plant.u.cfg, list, e.id, e);
      Pointwise(p.plant.u.cfg, b, list, e.id);
    }
    forall iid | iid in f.instances && Visible(f.instances[iid])
      ensures Owner(f.instances[iid]) in Reconcile(p.plant.u.cfg, b, list).d.machines
    {
      var i :| 0 <= i < |list| && list[i].id == Owner(f.instances[iid]) && list[i].state == Idle;
      assert list[i] in list;
    }
  }

  lemma SeedLinks(p: Watch, b: Mem, list: seq<Instance>, f: Fleet)
    requires b.d.machines == map[] && Seedable(p.plant.u.cfg, list) && Faithful(p.plant.provider, f.instances, list)
    requires FleetOk(p, f, map[]) && (p.untagged ==> Untagged(f))
    ensures Linked(p, Reconcile(p.plant.u.cfg, b, list).d, f, map[], map[])
    ensures Harmless(Reconcile(p.plant.u.cfg, b, list).d, list)
  {
    hide Agrees, Tracked, Harmless, Faithful, FleetOk, Untagged;
    SeedTracks(p, b, list, f);
    forall id | id in Reconcile(p.plant.u.cfg, b, list).d.machines
      ensures Agrees(p, Reconcile(p.plant.u.cfg, b, list).d, f, map[], id)
    {
      SeedAgrees(p, b, list, f, id);
    }
  }

  lemma ListingIsHarmless(p: Watch, d: Durable, f: Fleet, list: seq<Instance>)
    requires Tracked(d, f) && Faithful(p.plant.provider, f.instances, list)
    ensures Harmless(d, list)
  {
  }

  /* ---- the kit hands a task over ---- */

  lemma LaunchedIsPending(p: Watch, d: Durable, f: Fleet, effects: map<nat, Effect>, t: Task)
    requires Drives(d, t.op.n, t) && t.op.prefix == p.plant.u.cfg.prefix && 0 < t.op.n && t.op.n !in effects
    requires Agrees(p, d, f, effects, t.machine.id)
    ensures Pending(p, d, f, t.op.n, t)
  {
    hide Lives, Mine;
  }

  lemma LaunchKeepsLinked(p: Watch, d: Durable, f: Fleet, effects: map<nat, Effect>, calls: map<nat, Call>, t: Task)
    requires Linked(p, d, f, effects, calls) && Drives(d, t.op.n, t) && t.op.prefix == p.plant.u.cfg.prefix
    requires 0 < t.op.n
    requires t.op.n !in effects && t.op.n !in calls
    ensures Linked(p, d, f, effects, calls[t.op.n := Call(t, false, false, None)])
  {
    hide Agrees, Tracked;
    LaunchedIsPending(p, d, f, effects, t);
    forall n | n in calls && n !in effects
      ensures calls[n].task.machine.id != t.machine.id
    {
      assert Pending(p, d, f, n, calls[n].task);
    }
    hide Pending;
  }

  lemma ReleaseKeepsLinked(p: Watch, s: Sys, f: Fleet, effects: map<nat, Effect>)
    requires KitInv(p.plant.u, s) && Enabled(p.plant.u, s, Release) && EffectsOk(p, s.calls, effects)
    requires Linked(p, s.disk, f, effects, s.calls)
    ensures Linked(p, Released(s).disk, f, effects, Released(s).calls) && EffectsOk(p, Released(s).calls, effects)
  {
    hide HandedOk, TokensOk, BindingsOk, ReadyOk, Linked, Drives, MemOk, InputOk, RunSection;
    if s.proc.sec.launched.Some? {
      var t := s.proc.sec.launched.value;
      LaunchedDrives(p.plant.u, s);
      LaunchKeepsLinked(p, s.disk, f, effects, s.calls, t);
    }
  }

  lemma LaunchedDrives(u: Setup, s: Sys)
    requires KitInv(u, s) && Enabled(u, s, Release) && s.proc.sec.launched.Some?
    ensures var t := s.proc.sec.launched.value;
            Drives(s.disk, t.op.n, t) && t.op.prefix == u.cfg.prefix && 0 < t.op.n && t.op.n !in s.calls
  {
    hide HandedOk, TokensOk, BindingsOk, ReadyOk, MemOk, Drives, InputOk, RunSection;
    SectionOps(u.cfg, s.proc.before, s.proc.input);
    var t := s.proc.sec.launched.value;
    assert t.op.n in s.tasks && s.tasks[t.op.n] == t;
    assert Launching(s, t.op.n);
  }

  lemma UpdateKeepsLinked(p: Watch, d: Durable, f: Fleet, effects: map<nat, Effect>, calls: map<nat, Call>, n: nat,
      c: Call)
    requires Linked(p, d, f, effects, calls) && n in calls && c.task == calls[n].task
    ensures Linked(p, d, f, effects, calls[n := c])
  {
    hide Tracked, AllAgree, Pending;
    forall a, b | a in calls && b in calls && SameMachine(calls[n := c][a], calls[n := c][b])
      ensures SameMachine(calls[a], calls[b])
    {
    }
  }

  /* ---- one move of the whole ---- */

  lemma MoveKeeps(p: Watch, w: World, v: Move)
    requires WorldInv(p, w) && CanMove(p.plant, w, v)
    ensures WorldInv(p, Moved(p.plant, w, v))
  {
    hide KitInv, FleetOk, EffectsOk, Virgin, InStep, Enabled, Grounded, Next, Perform, Faithful;
    match v
    case Act(n) => ActMove(p, w, n);
    case Read(list) => ReadMove(p, w, list);
    case Kit(l) =>
      NextInv(p.plant.u, w.k, l);
      KitMove(p, w, l);
  }

  lemma ActMove(p: Watch, w: World, n: nat)
    requires WorldInv(p, w) && CanMove(p.plant, w, Act(n))
    ensures WorldInv(p, Moved(p.plant, w, Act(n))) && !Virgin(p, w)
    ensures p.free ==> Perform(w.fleet, w.k.calls[n].task).Some?
  {
    hide FleetOk, EffectsOk, Linked, AllHarmless, InputHarmless, Perform, Untagged, StoreOk, TasksOk, CallsOk, HandedOk,
        TokensOk, BindingsOk, ReadyOk, Faithful;
    InvDisk(p.plant.u, w.k);
    ActKeeps(p, w.k.disk, w.fleet, w.effects, w.k.calls, n);
  }

  lemma ReadMove(p: Watch, w: World, list: seq<Instance>)
    requires WorldInv(p, w) && CanMove(p.plant, w, Read(list))
    ensures WorldInv(p, Moved(p.plant, w, Read(list)))
  {
    hide KitInv, FleetOk, EffectsOk, AllAgree, AllPending, Harmless, InputHarmless, Untagged, Faithful, Tracked;
    ListingIsHarmless(p, w.k.disk, w.fleet, list);
  }

  lemma KitMove(p: Watch, w: World, l: KitSystem.Label)
    requires WorldInv(p, w) && CanMove(p.plant, w, Kit(l))
    ensures var v := Moved(p.plant, w, Kit(l)); EffectsOk(p, v.k.calls, v.effects) && (Virgin(p, v) || InStep(p, v))
  {
    hide KitInv, FleetOk, EffectsOk, Virgin, InStep, Grounded, Next, Enabled;
    match l
    case Begin(input) => EnterMove(p, w, l, input);
    case Boot(input) => EnterMove(p, w, l, input);
    case Commit => CommitMove(p, w);
    case Release => ReleaseMove(p, w);
    case Crash => CrashMove(p, w);
    case Applied(n) => CallMove(p, w, l, n);
    case Confirmed(n) => CallMove(p, w, l, n);
    case Returned(n, res) => CallMove(p, w, l, n);
  }

  lemma EnterMove(p: Watch, w: World, l: KitSystem.Label, input: Input)
    requires WorldInv(p, w) && CanMove(p.plant, w, Kit(l)) && (l == Begin(input) || l == Boot(input))
    ensures var v := Moved(p.plant, w, Kit(l)); EffectsOk(p, v.k.calls, v.effects) && (Virgin(p, v) || InStep(p, v))
  {
    hide KitInv, FleetOk, EffectsOk, AllAgree, AllPending, Harmless, Untagged, Faithful, Tracked, RunSection, Loaded,
        RecoveredTo, Seedable;
    if input.Seeding? && InStep(p, w) {
      ListingIsHarmless(p, w.k.disk, w.fleet, input.listing);
    }
  }

  lemma CrashMove(p: Watch, w: World)
    requires WorldInv(p, w) && CanMove(p.plant, w, Kit(Crash))
    ensures var v := Moved(p.plant, w, Kit(Crash)); EffectsOk(p, v.k.calls, v.effects) && (Virgin(p, v) || InStep(p, v))
  {
    hide KitInv, FleetOk, EffectsOk, Linked, Harmless, Untagged, Faithful;
  }

  lemma ReleaseMove(p: Watch, w: World)
    requires WorldInv(p, w) && CanMove(p.plant, w, Kit(Release))
    ensures var v := Moved(p.plant, w, Kit(Release));
            EffectsOk(p, v.k.calls, v.effects) && (Virgin(p, v) || InStep(p, v))
  {
    hide FleetOk, EffectsOk, Linked, Harmless, Untagged, Faithful, TasksOk, CallsOk, HandedOk, TokensOk, BindingsOk,
        ReadyOk, MemOk, Reconcile, Dispatch;
    assert InStep(p, w);
    ReleaseKeepsLinked(p, w.k, w.fleet, w.effects);
  }

  lemma CallMove(p: Watch, w: World, l: KitSystem.Label, n: nat)
    requires WorldInv(p, w) && CanMove(p.plant, w, Kit(l))
    requires l == Applied(n) || l == Confirmed(n) || (l.Returned? && l.n == n)
    ensures var v := Moved(p.plant, w, Kit(l)); EffectsOk(p, v.k.calls, v.effects) && (Virgin(p, v) || InStep(p, v))
  {
    hide KitInv, FleetOk, Linked, Harmless, Untagged, Faithful;
    UpdateKeepsLinked(p, w.k.disk, w.fleet, w.effects, w.k.calls, n, Next(p.plant.u, w.k, l).calls[n]);
  }

  lemma CommitMove(p: Watch, w: World)
    requires WorldInv(p, w) && CanMove(p.plant, w, Kit(Commit))
    ensures var v := Moved(p.plant, w, Kit(Commit));
            EffectsOk(p, v.k.calls, v.effects) && (Virgin(p, v) || InStep(p, v))
  {
    hide KitInv, FleetOk, EffectsOk, Linked, AllHarmless, Virgin, Faithful, TasksOk, CallsOk;
    if Virgin(p, w) {
      VirginCommits(p, w);
    } else {
      CommitKeepsLinked(p, w.k, w.fleet, w.effects);
      GrowsKeepsHarmless(w.k.disk, w.k.proc.sec.mem.d, w.seen);
    }
  }

  lemma VirginCommits(p: Watch, w: World)
    requires WorldInv(p, w) && CanMove(p.plant, w, Kit(Commit)) && Virgin(p, w)
    ensures InStep(p, Moved(p.plant, w, Kit(Commit)))
  {
    hide FleetOk, Linked, Harmless, Faithful, TasksOk, CallsOk, HandedOk, TokensOk, BindingsOk, ReadyOk, MemOk,
        Reconcile, Seedable;
    var b, list := w.k.proc.before, w.k.proc.input.listing;
    assert w.effects == map[];
    SeedLinks(p, b, list, w.fleet);
  }

  /* ---- over whole runs ---- */

  /** The fleet a run starts from allows what is watched over. */
  ghost predicate Suits(p: Watch, f: Fleet) {
    FleetOk(p, f, map[]) && (p.untagged ==> Untagged(f))
  }

  lemma StartsWell(p: Watch, w: World)
    requires w.k == START && w.effects == map[] && w.seen == {} && Suits(p, w.fleet)
    ensures WorldInv(p, w)
  {
    StartInv(p.plant.u);
    hide KitInv;
  }

  lemma {:induction false} WorldRunInv(p: Watch, states: seq<World>, moves: seq<Move>, i: nat)
    requires WorldRun(p.plant, states, moves) && i < |states| && Suits(p, states[0].fleet)
    ensures WorldInv(p, states[i])
  {
    hide WorldInv, CanMove, Moved, Suits;
    if i == 0 {
      StartsWell(p, states[0]);
    } else {
      WorldRunInv(p, states, moves, i - 1);
      MoveKeeps(p, states[i - 1], moves[i - 1]);
    }
  }

  /** No double provisioning: whatever tokens the fleet started with, no machine id ever has two live instances. */
  lemma OneInstancePerMachine(p: Plant, states: seq<World>, moves: seq<Move>, i: nat, a: string, b: string)
    requires WorldRun(p, states, moves) && i < |states|
    requires var live := states[i].fleet.instances;
             a in live && b in live && Visible(live[a]) && Visible(live[b]) && Owner(live[a]) == Owner(live[b])
    ensures a == b
  {
    WorldRunInv(Watch(p, false, false), states, moves, i);
    hide KitInv, EffectsOk, Virgin, InStep;
  }

  predicate Resting(s: State) {
    s == Idle || s == Configuring || s == Configured || s == Draining
  }

  /**
    Nothing leaks: once the kit serves, every live instance belongs to a record. A Speculative
    record has none, a resting record has at most its host, and a Creating or Deleting one has an
    instance only as far as its own call has got.
   */
  lemma EveryInstanceIsAccountedFor(p: Plant, states: seq<World>, moves: seq<Move>, i: nat, iid: string)
    requires WorldRun(p, states, moves) && i < |states| && states[i].k.proc.Up?
    requires iid in states[i].fleet.instances && Visible(states[i].fleet.instances[iid])
    ensures AccountedFor(p, states[i], iid)
  {
    WorldRunInv(Watch(p, false, false), states, moves, i);
    InstanceIsTracked(Watch(p, false, false), states[i], iid);
  }

  predicate AccountedFor(p: Plant, w: World, iid: string)
    requires iid in w.fleet.instances
  {
    var id, d := Owner(w.fleet.instances[iid]), w.k.disk;
    && id in d.machines && d.machines[id].state != Speculative
    && (Resting(d.machines[id].state) ==> d.machines[id].host == HostRef(p.provider, iid))
    && (d.machines[id].state == Creating ==> OpKey(id, Create) in d.ops && d.ops[OpKey(id, Create)].n in w.effects)
    && (d.machines[id].state == Deleting ==> OpKey(id, Delete) in d.ops && d.ops[OpKey(id, Delete)].n !in w.effects)
  }

  lemma InstanceIsTracked(p: Watch, w: World, iid: string)
    requires WorldInv(p, w) && w.k.proc.Up? && iid in w.fleet.instances && Visible(w.fleet.instances[iid])
    ensures AccountedFor(p.plant, w, iid)
  {
    hide KitInv, EffectsOk, Untagged, Faithful, AllPending, AllHarmless, InputHarmless;
    var id := Owner(w.fleet.instances[iid]);
    assert Owns(w.fleet.instances[iid], id) && Agrees(p, w.k.disk, w.fleet, w.effects, id);
  }

  /** The host of the record is a live instance owned by that record and named by no other. */
  ghost predicate HostIsReal(p: Plant, w: World, id: string)
    requires id in w.k.disk.machines
  {
    var m, live := w.k.disk.machines[id], w.fleet.instances;
    && m.host.provider == p.provider && m.host.ref in live && Owns(live[m.host.ref], id)
    && forall other :: other in w.k.disk.machines && other != id ==> w.k.disk.machines[other].host != m.host
  }

  /** Where nothing is in flight the host's cluster tag is the record's binding. */
  predicate TagIsReal(w: World, id: string)
    requires id in w.k.disk.machines
  {
    var m := w.k.disk.machines[id];
    (m.state == Idle || m.state == Configured) && m.host.ref in w.fleet.instances ==>
      w.fleet.instances[m.host.ref].cluster == m.cluster
  }

  /** Every Idle, Configuring, Configured or Draining record has a host of its own. */
  ghost predicate HostsReal(p: Plant, w: World) {
    forall id :: id in w.k.disk.machines && Resting(w.k.disk.machines[id].state) ==> HostIsReal(p, w, id)
  }

  ghost predicate TagsReal(w: World) {
    forall id :: id in w.k.disk.machines ==> TagIsReal(w, id)
  }

  /** Records agree with EC2 throughout, for a fleet in which no live instance answers to a token of the kit. */
  lemma HostsAreReal(p: Plant, states: seq<World>, moves: seq<Move>, i: nat)
    requires WorldRun(p, states, moves) && i < |states| && TokensFree(p, states[0].fleet, map[])
    ensures HostsReal(p, states[i])
    ensures Untagged(states[0].fleet) ==> TagsReal(states[i])
  {
    var x := Watch(p, true, Untagged(states[0].fleet));
    WorldRunInv(x, states, moves, i);
    hide WorldInv, HostIsReal, TagIsReal, WorldRun;
    forall id | id in states[i].k.disk.machines
      ensures Resting(states[i].k.disk.machines[id].state) ==> HostIsReal(p, states[i], id)
      ensures x.untagged ==> TagIsReal(states[i], id)
    {
      RecordIsReal(x, states[i], id);
    }
  }

  lemma RecordIsReal(p: Watch, w: World, id: string)
    requires WorldInv(p, w) && p.free && id in w.k.disk.machines
    ensures Resting(w.k.disk.machines[id].state) ==> HostIsReal(p.plant, w, id)
    ensures p.untagged ==> TagIsReal(w, id)
  {
    hide StoreOk, TasksOk, CallsOk, HandedOk, TokensOk, BindingsOk, ReadyOk, EffectsOk, Untagged, Faithful, Tracked,
        AllPending, AllHarmless, InputHarmless;
    InvDisk(p.plant.u, w.k);
    var d := w.k.disk;
    assert Agrees(p, d, w.fleet, w.effects, id) && InShape(d.machines[id]);
    if Resting(d.machines[id].state) {
      forall other | other in d.machines && other != id
        ensures d.machines[other].host != d.machines[id].host
      {
        assert Agrees(p, d, w.fleet, w.effects, other);
      }
    }
  }

  /**
    For such a fleet a backend call never meets an unknown instance, however late it acts, and every
    Create that acts launches an instance that did not exist, tagged with its machine.
   */
  lemma CallsFindTheirInstance(p: Plant, states: seq<World>, moves: seq<Move>, i: nat)
    requires WorldRun(p, states, moves) && i < |moves| && moves[i].Act? && TokensFree(p, states[0].fleet, map[])
    ensures var n := moves[i].n; n in states[i].k.calls && n !in states[i].effects && n in states[i + 1].effects
    ensures var t, e := states[i].k.calls[moves[i].n].task, states[i + 1].effects[moves[i].n];
            t.kind == Create ==>
              && e.Launched? && e.iid !in states[i].fleet.instances
              && e.iid in states[i + 1].fleet.instances
              && states[i + 1].fleet.instances[e.iid].machineId == t.machine.id
  {
    var x := Watch(p, true, false);
    WorldRunInv(x, states, moves, i);
    ActIsNew(x, states[i], moves[i].n);
  }

  lemma ActIsNew(p: Watch, w: World, n: nat)
    requires WorldInv(p, w) && p.free && CanMove(p.plant, w, Act(n))
    ensures Perform(w.fleet, w.k.calls[n].task).Some?
    ensures var t, done := w.k.calls[n].task, Perform(w.fleet, w.k.calls[n].task).value;
            t.kind == Create ==>
              && done.1.Launched? && done.1.iid !in w.fleet.instances
              && done.1.iid in done.0.instances && done.0.instances[done.1.iid].machineId == t.machine.id
  {
    hide StoreOk, TasksOk, CallsOk, HandedOk, TokensOk, BindingsOk, ReadyOk, EffectsOk, Linked, Untagged, Faithful,
        AllHarmless, InputHarmless, FleetOk, Perform, Touches;
    ActMove(p, w, n);
    InvDisk(p.plant.u, w.k);
    ActKeeps(p, w.k.disk, w.fleet, w.effects, w.k.calls, n);
    if w.k.calls[n].task.kind == Create {
      NewIsTagged(p, w.fleet, w.effects, w.k.calls[n].task);
    }
  }

  lemma NewIsTagged(p: Watch, f: Fleet, effects: map<nat, Effect>, t: Task)
    requires FleetOk(p, f, effects) && t.kind == Create
    ensures Perform(f, t).Some? && Perform(f, t).value.1.Launched?
    ensures var (g, e) := Perform(f, t).value;
            e.iid !in f.instances ==> e.iid in g.instances && g.instances[e.iid].machineId == t.machine.id
  {
  }

  /* ---- what is launched ---- */

  predicate SameFacts(a: Ec2Instance, b: Ec2Instance) {
    b.(cluster := a.cluster) == a
  }

  /** Whatever happens to the fleet, an instance keeps all but its cluster tag, and a new one has a new id. */
  ghost predicate Ages(f: Fleet, g: Fleet) {
    && f.counter <= g.counter
    && forall iid :: iid in g.instances ==>
         || (iid in f.instances && SameFacts(f.instances[iid], g.instances[iid]))
         || (exists c :: f.counter < c && iid == FakeId(c))
  }

  lemma MoveAges(p: Plant, w: World, v: Move)
    requires CanMove(p, w, v)
    ensures Ages(w.fleet, Moved(p, w, v).fleet)
  {
    hide Enabled, Next, FakeId;
    if v.Act? {
      var t := w.k.calls[v.n].task;
      if t.kind == Create && !Replays(w.fleet, Spec(t)) {
        assert FakeId(w.fleet.counter + 1) == NewInstance(w.fleet, Spec(t)).instanceId;
      }
    }
  }

  lemma {:induction false} KeepsFacts(p: Plant, states: seq<World>, moves: seq<Move>, k: nat, i: nat, iid: string)
    requires WorldRun(p, states, moves) && k <= i < |states| && iid in states[k].fleet.instances
    ensures states[k].fleet.counter <= states[i].fleet.counter
    ensures iid in states[i].fleet.instances ==>
              SameFacts(states[k].fleet.instances[iid], states[i].fleet.instances[iid])
    decreases i - k
  {
    hide CanMove, Moved, FakeId, KitInv, EffectsOk, Virgin, InStep;
    if k < i {
      KeepsFacts(p, states, moves, k, i - 1, iid);
      WorldRunInv(Watch(p, false, false), states, moves, k);
      MoveAges(p, states[i - 1], moves[i - 1]);
    }
  }

  /**
    In every reachable state, an instance that a create launched and that is still alive has that
    machine's own type, zone, capacity and market.
   */
  lemma LaunchedAsAsked(p: Plant, states: seq<World>, moves: seq<Move>, j: nat, i: nat)
    requires WorldRun(p, states, moves) && j < i < |states| && moves[j].Act?
    requires moves[j].n in states[j].k.calls && states[j].k.calls[moves[j].n].task.kind == Create
    ensures var n, t := moves[j].n, states[j].k.calls[moves[j].n].task;
            && n in states[j + 1].effects && states[j + 1].effects[n].Launched?
            && (var iid := states[j + 1].effects[n].iid;
                iid !in states[j].fleet.instances && iid in states[i].fleet.instances ==>
                  AsAsked(states[i].fleet.instances[iid], t.machine))
  {
    hide Enabled, Next, FakeId, AsAsked, Perform;
    assert CanMove(p, states[j], moves[j]) && states[j + 1] == Moved(p, states[j], moves[j]);
    var t := states[j].k.calls[moves[j].n].task;
    LaunchesAsAsked(states[j].fleet, t);
    WorldRunInv(Watch(p, false, false), states, moves, j);
    var iid := states[j + 1].effects[moves[j].n].iid;
    if iid !in states[j].fleet.instances && iid in states[i].fleet.instances {
      NotHeld(Watch(p, false, false), states[j], t, iid);
      KeepsFacts(p, states, moves, j + 1, i, iid);
      FactsAsAsked(states[j + 1].fleet.instances[iid], states[i].fleet.instances[iid], t.machine);
    }
  }

  lemma NotHeld(x: Watch, w: World, t: Task, iid: string)
    requires WorldInv(x, w) && t.kind == Create && iid !in w.fleet.instances
    requires Perform(w.fleet, t).Some? && Perform(w.fleet, t).value.1 == Launched(iid)
    ensures !Held(w.fleet, t.op)
  {
    hide KitInv, EffectsOk, Virgin, InStep, OneEach;
    LaunchesAsAsked(w.fleet, t);
  }

  lemma FactsAsAsked(a: Ec2Instance, b: Ec2Instance, m: Machine)
    requires AsAsked(a, m) && SameFacts(a, b)
    ensures AsAsked(b, m)
  {
  }
}
