/** Records and pure rules of the lifecycle kit: machine.go, fence.go and backend.go. */
module Machines {

  datatype Option<+T> = None | Some(value: T)

  datatype State =
    | Unspecified
    | Speculative
    | Creating
    | Idle
    | Configuring
    | Configured
    | Draining
    | Deleting
    | Failed

  datatype CapacityType = CapacityUnspecified | BareMetal | Reserved | OnDemand | Spot

  datatype Kind = Create | Configure | Drain | Delete

  /** An IEEE double as the kit compares it: rounding plays no part here. */
  datatype Float64 = NaN | NegInf | Fin(r: real) | PosInf {

    /** Go's `x != y`: NaN differs from everything, itself included. */
    predicate Differs(other: Float64) {
      NaN? || other.NaN? || this != other
    }

    predicate IsNegative() {
      NegInf? || (Fin? && r < 0.0)
    }

    predicate AboveOne() {
      PosInf? || (Fin? && r > 1.0)
    }
  }

  /** A Go map[string]string, which may be nil. */
  datatype Attrs = NilAttrs | Attrs(entries: map<string, string>) {

    function Content(): map<string, string> {
      if NilAttrs? then map[] else entries
    }
  }

  datatype HostRef = HostRef(provider: string, ref: string) {

    predicate Empty() {
      provider == "" && ref == ""
    }
  }

  const NO_HOST := HostRef("", "")

  datatype Machine = Machine(
    id: string,
    state: State,
    host: HostRef,
    instanceType: string,
    zone: string,
    capacity: CapacityType,
    price: Float64,
    interruption: Float64,
    resources: Attrs,
    allocatable: Attrs,
    labels: Attrs,
    cluster: string,
    metadata: Attrs,
    lastError: string)

  /* ---- the lifecycle graph ---- */

  function Transitional(k: Kind): State {
    match k
    case Create => Creating
    case Configure => Configuring
    case Drain => Draining
    case Delete => Deleting
  }

  function Stable(k: Kind): State {
    match k
    case Create => Idle
    case Configure => Configured
    case Drain => Idle
    case Delete => Speculative
  }

  predicate CanStart(s: State, k: Kind) {
    match k
    case Create => s == Speculative
    case Configure => s == Idle
    case Drain => s == Configured
    case Delete => s == Idle
  }

  predicate IsTransitional(s: State) {
    s == Creating || s == Configuring || s == Draining || s == Deleting
  }

  /** The operation a transitional state belongs to. */
  function KindOf(s: State): Kind
    requires IsTransitional(s)
  {
    match s
    case Creating => Create
    case Configuring => Configure
    case Draining => Drain
    case Deleting => Delete
  }

  function KindText(k: Kind): string {
    match k
    case Create => "create"
    case Configure => "configure"
    case Drain => "drain"
    case Delete => "delete"
  }

  function KindFromText(s: string): Kind {
    if s == "configure" then Configure
    else if s == "drain" then Drain
    else if s == "delete" then Delete
    else Create
  }

  function StateText(s: State): string {
    match s
    case Speculative => "Speculative"
    case Creating => "Creating"
    case Idle => "Idle"
    case Configuring => "Configuring"
    case Configured => "Configured"
    case Draining => "Draining"
    case Deleting => "Deleting"
    case Failed => "Failed"
    case Unspecified => "Unspecified"
  }

  function StateFromText(t: string): State {
    if t == "Speculative" then Speculative
    else if t == "Creating" then Creating
    else if t == "Idle" then Idle
    else if t == "Configuring" then Configuring
    else if t == "Configured" then Configured
    else if t == "Draining" then Draining
    else if t == "Deleting" then Deleting
    else if t == "Failed" then Failed
    else Unspecified
  }

  function CapacityText(c: CapacityType): string {
    match c
    case BareMetal => "BareMetal"
    case Reserved => "Reserved"
    case OnDemand => "OnDemand"
    case Spot => "Spot"
    case CapacityUnspecified => "Unspecified"
  }

  function CapacityFromText(t: string): CapacityType {
    if t == "BareMetal" then BareMetal
    else if t == "Reserved" then Reserved
    else if t == "OnDemand" then OnDemand
    else if t == "Spot" then Spot
    else CapacityUnspecified
  }

  /* ---- fencing tokens ---- */

  datatype Fence = Fence(shard: string, epoch: int, sequence: int) {

    predicate Zero() {
      shard == "" && epoch == 0 && sequence == 0
    }

    function Mark(): FenceMark {
      FenceMark(epoch, sequence)
    }
  }

  datatype FenceKey = FenceKey(shard: string, machine: string)

  datatype FenceMark = FenceMark(epoch: int, sequence: int)

  /** FenceMark.newer: is `f` strictly newer than the mark `m`, lexicographically? */
  predicate Newer(m: FenceMark, f: FenceMark) {
    if f.epoch != m.epoch then f.epoch > m.epoch else f.sequence > m.sequence
  }

  /* ---- what a backend reports ---- */

  datatype Instance = Instance(
    id: string,
    host: HostRef,
    state: State,
    instanceType: string,
    zone: string,
    capacity: CapacityType,
    price: Float64,
    interruption: Float64,
    resources: Attrs,
    allocatable: Attrs,
    labels: Attrs) {

    function EffectiveState(): State {
      if state != Unspecified then state
      else if host.Empty() then Speculative
      else Idle
    }

    predicate Valid(requireZone: bool) {
      && id != ""
      && instanceType != ""
      && capacity != CapacityUnspecified
      && (requireZone ==> zone != "")
      && !price.NaN? && !price.IsNegative()
      && !interruption.NaN? && !interruption.IsNegative() && !interruption.AboveOne()
      && (capacity == Spot ==> interruption != Fin(0.0))
      && match EffectiveState() {
        case Speculative => host.Empty()
        case Idle => !host.Empty()
        case _ => false
      }
    }

    function ToMachine(): Machine {
      Machine(id, EffectiveState(), host, instanceType, zone, capacity, price, interruption,
              resources, allocatable, labels, "", NilAttrs, "")
    }
  }

  /** A real host backs the machine. */
  predicate Hosted(s: State) {
    s == Idle || s == Configuring || s == Configured || s == Draining || s == Deleting
  }

  /** A cluster binding exists. */
  predicate Bound(s: State) {
    s == Configuring || s == Configured || s == Draining
  }

  /** Which record fields each state carries, and that lasting facts of an import hold. */
  predicate InShape(m: Machine) {
    && m.state != Unspecified
    && m.id != ""
    && m.instanceType != ""
    && m.capacity != CapacityUnspecified
    && !m.price.NaN? && !m.price.IsNegative()
    && !m.interruption.NaN? && !m.interruption.IsNegative() && !m.interruption.AboveOne()
    && (m.state == Speculative || m.state == Creating ==> m.host.Empty())
    && (Hosted(m.state) ==> !m.host.Empty())
    && (!Bound(m.state) && m.state != Failed ==> m.cluster == "" && m.metadata == NilAttrs)
    && (m.state != Failed ==> m.lastError == "")
  }

  /** Identity facts no step of the kit may ever change. */
  predicate SameIdentity(a: Machine, b: Machine) {
    a.id == b.id && a.instanceType == b.instanceType && a.zone == b.zone && a.capacity == b.capacity
  }
}
