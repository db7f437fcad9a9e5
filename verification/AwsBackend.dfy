/** aws/backend.go: what the four actuators do to EC2 for a task the kit hands them. */
module AwsBackend {
  import opened CapacityTags
  import opened Machines
  import opened Kit
  import opened Ec2

  /** What a backend call has done to EC2. */
  datatype Effect = Launched(iid: string) | Done

  function Spec(t: Task): RunSpec {
    RunSpec(t.machine.id, t.machine.instanceType, t.machine.zone, t.machine.capacity == Spot,
            CapacityString(t.machine.capacity), OpText(t.op))
  }

  /** The fleet after the call and what the call did, or None when it errs without acting. */
  function Perform(f: Fleet, t: Task): Option<(Fleet, Effect)> {
    var ref := t.machine.host.ref;
    match t.kind
    case Create => var r := Launch(f, Spec(t)); Some((r.0, Launched(r.1.instanceId)))
    case Configure => if ref == "" then None else Acted(SetCluster(f, ref, t.machine.cluster))
    case Drain => if ref == "" then None else Acted(SetCluster(f, ref, ""))
    case Delete => if ref == "" then None else Acted(Terminate(f, ref))
  }

  function Acted(f: Option<Fleet>): Option<(Fleet, Effect)> {
    match f
    case None => None
    case Some(g) => Some((g, Done))
  }

  /** The instance is of the machine's own type, zone, capacity and market, and belongs to no cluster yet. */
  predicate AsAsked(i: Ec2Instance, m: Machine) {
    && i.machineId == m.id && i.instanceType == m.instanceType && i.zone == m.zone
    && (i.spot <==> m.capacity == Spot) && ParseCapacityTag(i.capacity) == m.capacity
  }

  /** Some live instance answers to the operation's token already. */
  predicate Held(f: Fleet, op: OpId) {
    OpText(op) in f.byToken && f.byToken[OpText(op)] in f.instances
  }

  /** One instance more, launched for this machine under this operation's token; all others as they were. */
  predicate LaunchedFor(before: Fleet, after: Fleet, t: Task, iid: string) {
    && iid in after.instances && after.instances == before.instances[iid := after.instances[iid]]
    && AsAsked(after.instances[iid], t.machine) && after.instances[iid].instanceId == iid
    && after.instances[iid].cluster == "" && after.instances[iid].running
    && after.byToken == before.byToken[OpText(t.op) := iid]
  }

  /** A create whose token no live instance answers to launches a new instance as asked, and only that. */
  lemma LaunchesAsAsked(f: Fleet, t: Task)
    requires t.kind == Create
    ensures Perform(f, t).Some? && Perform(f, t).value.1.Launched?
    ensures var (g, e) := Perform(f, t).value;
            if Held(f, t.op) then g == f && e.iid == f.instances[f.byToken[OpText(t.op)]].instanceId
            else
              && LaunchedFor(f, g, t, e.iid) && e.iid != ""
              && ((forall n :: n > f.counter ==> FakeId(n) !in f.instances) ==> e.iid !in f.instances)
  {
    TagRoundTrip("", t.machine.capacity);
    assert OpText(t.op)[|t.op.prefix|] == '-';
  }

  method CreateInstance(provider: string, allocatable: string -> Attrs, ec2: Ec2Fake,
      t: Task) returns (res: BackendResult)
    requires t.kind == Create
    modifies ec2
    ensures var (f, e) := Perform(old(ec2.Contents()), t).value;
            && ec2.Contents() == f && e.Launched?
            && (res.Ok? <==> e.iid != "")
            && (res.Ok? ==> res.host == HostRef(provider, e.iid) && !res.host.Empty()
                            && res.resources == NilAttrs && res.allocatable == allocatable(t.machine.instanceType))
    ensures if Held(old(ec2.Contents()), t.op) then ec2.Contents() == old(ec2.Contents())
            else res.Ok? && LaunchedFor(old(ec2.Contents()), ec2.Contents(), t, res.host.ref)
  {
    LaunchesAsAsked(ec2.Contents(), t);
    var inst := ec2.RunInstance(
      RunSpec(t.machine.id, t.machine.instanceType, t.machine.zone, t.machine.capacity == Spot,
              CapacityString(t.machine.capacity), OpText(t.op)));
    if inst.instanceId == "" {
      return Err("RunInstances " + t.machine.instanceType + " returned no instance id");
    }
    return Ok(HostRef(provider, inst.instanceId), NilAttrs, allocatable(t.machine.instanceType));
  }

  ghost predicate Answered(before: Fleet, after: Fleet, t: Task, res: BackendResult) {
    match Perform(before, t)
    case None => res.Err? && after == before
    case Some(done) => res.Ok? && after == done.0 && done.1 == Done
  }

  /** The instance behind this host has this cluster tag now, or there is none and nothing changed. */
  predicate Retagged(before: Fleet, after: Fleet, ref: string, cluster: string, done: bool) {
    && (done <==> ref != "" && ref in before.instances)
    && (if done
        then after == before.(instances := before.instances[ref := before.instances[ref].(cluster := cluster)])
        else after == before)
  }

  const BARE := Ok(NO_HOST, NilAttrs, NilAttrs)

  method ConfigureInstance(ec2: Ec2Fake, t: Task) returns (res: BackendResult)
    requires t.kind == Configure
    modifies ec2
    ensures Answered(old(ec2.Contents()), ec2.Contents(), t, res)
    ensures Retagged(old(ec2.Contents()), ec2.Contents(), t.machine.host.ref, t.machine.cluster, res.Ok?)
  {
    if t.machine.host.ref == "" {
      return Err("configure: machine " + t.machine.id + " has no host");
    }
    var ok := ec2.ApplyBootstrap(t.machine.host.ref, t.machine.cluster);
    res := if ok then BARE else Err("ec2fake: configure unknown instance " + t.machine.host.ref);
  }

  method DrainInstance(ec2: Ec2Fake, t: Task) returns (res: BackendResult)
    requires t.kind == Drain
    modifies ec2
    ensures Answered(old(ec2.Contents()), ec2.Contents(), t, res)
    ensures Retagged(old(ec2.Contents()), ec2.Contents(), t.machine.host.ref, "", res.Ok?)
  {
    if t.machine.host.ref == "" {
      return Err("drain: machine " + t.machine.id + " has no host");
    }
    var ok := ec2.DrainNode(t.machine.host.ref);
    res := if ok then BARE else Err("ec2fake: drain unknown instance " + t.machine.host.ref);
  }

  /** Spot interruptions observed so far: the probability each notice raised its machine to. */
  class Interruptions {
    var observed: map<string, Float64>

    constructor ()
      ensures observed == map[]
    {
      observed := map[];
    }

    method Clear(id: string)
      modifies this
      ensures observed == old(observed) - {id}
    {
      observed := observed - {id};
    }
  }

  /** The observed interruption is dropped once the delete has acted, and only then. */
  method DeleteInstance(ec2: Ec2Fake, spot: Interruptions, t: Task) returns (res: BackendResult)
    requires t.kind == Delete
    modifies ec2, spot
    ensures Answered(old(ec2.Contents()), ec2.Contents(), t, res)
    ensures var before, ref := old(ec2.Contents()), t.machine.host.ref;
            && (res.Ok? <==> ref != "" && ref in before.instances)
            && ec2.Contents() == if res.Ok? then before.(instances := before.instances - {ref}) else before
    ensures spot.observed == if res.Ok? then old(spot.observed) - {t.machine.id} else old(spot.observed)
  {
    if t.machine.host.ref == "" {
      return Err("delete: machine " + t.machine.id + " has no host");
    }
    var ok := ec2.TerminateInstance(t.machine.host.ref);
    if !ok {
      return Err("ec2fake: terminate unknown instance " + t.machine.host.ref);
    }
    spot.Clear(t.machine.id);
    return BARE;
  }
}
