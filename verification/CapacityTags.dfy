/** The capacity tag an instance carries, as the AWS and Azure backends write and read it. */
module CapacityTags {
  import opened Machines

  function CapacityString(c: CapacityType): string {
    match c
    case Spot => "spot"
    case Reserved => "reserved"
    case BareMetal => "bare_metal"
    case OnDemand => "on_demand"
    case CapacityUnspecified => ""
  }

  function ParseCapacityTag(s: string): CapacityType {
    if s == "spot" then Spot
    else if s == "reserved" then Reserved
    else if s == "bare_metal" then BareMetal
    else if s == "on_demand" then OnDemand
    else CapacityUnspecified
  }

  /** The capacity recorded at Create is the one an import recovers, and no foreign tag is taken for one. */
  lemma TagRoundTrip(s: string, c: CapacityType)
    ensures ParseCapacityTag(CapacityString(c)) == c
    ensures c != CapacityUnspecified ==> (ParseCapacityTag(s) == c <==> s == CapacityString(c))
    ensures ParseCapacityTag("spot") == Spot && ParseCapacityTag("on_demand") == OnDemand
    ensures ParseCapacityTag("reserved") == Reserved && ParseCapacityTag("bare_metal") == BareMetal
  {
  }
}
