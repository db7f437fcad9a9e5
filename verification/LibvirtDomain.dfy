/**
  libvirt/libvirtreal.go: creating and deleting a domain as a transaction over one host, any step of
  which may fail. Steps are numbered; a plan says which of them fail.
 */
module LibvirtDomain {
  import opened Machines

  datatype Power = Running | Blocked | Paused | PmSuspended | ShuttingDown | Shutoff | Crashed | NoState

  /** domainActive. */
  predicate Active(p: Power) {
    p == Running || p == Blocked || p == Paused || p == PmSuspended
  }

  /** The states powerOn starts or resumes a domain from. */
  predicate Asleep(p: Power) {
    p == Shutoff || p == Crashed || p == Paused || p == PmSuspended
  }

  /** A persistent domain; one without readable bigfleet metadata has an empty machine id. */
  datatype Domain = Domain(machineId: string, clusterId: string, power: Power)

  datatype Host = Host(domains: map<string, Domain>, vols: set<string>)

  datatype View = View(name: string, machineId: string, clusterId: string, running: bool)

  datatype Outcome = Got(view: View) | Errored(at: string)

  /** How far a create got; a rollback ran from step `from` on. */
  datatype Path = Early | Recovered(name: string) | Undone(from: nat) | Started

  /** The domain name is a hash of the token, which stays abstract. */
  datatype Spec = Spec(machineId: string, token: string, image: string)

  function Overlay(name: string): string {
    name + "-overlay.qcow2"
  }

  function Seed(name: string): string {
    name + "-cidata.iso"
  }

  lemma SuffixesDiffer(name: string)
    ensures Overlay(name) != Seed(name)
  {
    assert Overlay(name)[|name|..] == "-overlay.qcow2" && Seed(name)[|name|..] == "-cidata.iso";
  }

  /** Step i errs; steps past the end of the plan succeed. A step that errs has had no effect. */
  predicate Fails(plan: seq<bool>, i: nat) {
    i < |plan| && plan[i]
  }

  ghost predicate Lists(order: seq<string>, domains: map<string, Domain>) {
    && (forall n :: n in order <==> n in domains)
    && forall j, k :: 0 <= j < k < |order| ==> order[j] != order[k]
  }

  /* ---- the steps as functions of host, plan and step number ---- */

  datatype Search = Search(found: Option<string>, clock: nat)

  /** findByMachineID over the listed domains; a failed metadata read counts as no machine id. */
  function Find(domains: map<string, Domain>, plan: seq<bool>, c: nat, mid: string, order: seq<string>): Search
    requires forall n :: n in order ==> n in domains
    decreases |order|
  {
    if |order| == 0 then Search(None, c)
    else if (if Fails(plan, c) then "" else domains[order[0]].machineId) == mid then Search(Some(order[0]), c + 1)
    else Find(domains, plan, c + 1, mid, order[1..])
  }

  datatype Made = Made(vols: set<string>, clock: nat, failed: bool, created: seq<string>)

  function Adopted(vols: set<string>, plan: seq<bool>, c: nat, vol: string): Made {
    if Fails(plan, c) then Made(vols, c + 1, true, [])
    else if vol !in vols then Made(vols + {vol}, c + 1, false, [vol])
    else Made(vols, c + 2, Fails(plan, c + 1), [])
  }

  /** The next step: it fails the volume work but unmakes nothing. */
  function Stepped(m: Made, plan: seq<bool>): Made {
    if m.failed then m else m.(clock := m.clock + 1, failed := Fails(plan, m.clock))
  }

  function Seeded(vols: set<string>, plan: seq<bool>, c: nat, name: string): Made {
    if Fails(plan, c) then Made(vols, c + 1, true, [])
    else Stepped(Stepped(Adopted(vols, plan, c + 1, Seed(name)), plan), plan)
  }

  function Volumes(vols: set<string>, plan: seq<bool>, c: nat, name: string): Made {
    var o := Stepped(Adopted(vols, plan, c, Overlay(name)), plan);
    if o.failed then o
    else
      var s := Seeded(o.vols, plan, o.clock, name);
      s.(created := o.created + s.created)
  }

  datatype Trial = Trial(host: Host, clock: nat, created: seq<string>, defined: bool, started: bool)

  function Provisioned(h: Host, plan: seq<bool>, c: nat, name: string, mid: string): Trial {
    var v := Stepped(Stepped(Volumes(h.vols, plan, c, name), plan), plan);      // metadata, define
    var made := h.(vols := v.vols);
    if v.failed then Trial(made, v.clock, v.created, false, false)
    else if Fails(plan, v.clock) then
      Trial(made.(domains := h.domains[name := Domain(mid, "", Shutoff)]), v.clock + 1, v.created, true, false)
    else
      Trial(made.(domains := h.domains[name := Domain(mid, "", Running)]), v.clock + 1, v.created, true, true)
  }

  datatype Base = Base(failed: bool, clock: nat)

  /** Pool, base volume, its path and size; its format is read best effort. */
  function Inspected(vols: set<string>, image: string, plan: seq<bool>, c: nat): Base {
    if Fails(plan, c) then Base(true, c + 1)
    else if Fails(plan, c + 1) || image !in vols then Base(true, c + 2)
    else if Fails(plan, c + 2) then Base(true, c + 3)
    else if Fails(plan, c + 3) then Base(true, c + 4)
    else Base(false, c + 5)
  }

  datatype Undefining = Undefining(domains: map<string, Domain>, clock: nat, failed: bool)

  function Undefined(domains: map<string, Domain>, plan: seq<bool>, c: nat, name: string): Undefining {
    if !Fails(plan, c) then Undefining(domains - {name}, c + 1, false)
    else if !Fails(plan, c + 1) then Undefining(domains - {name}, c + 2, false)
    else Undefining(domains, c + 2, true)
  }

  datatype Wiped = Wiped(vols: set<string>, clock: nat)

  function WipedEach(vols: set<string>, plan: seq<bool>, c: nat, names: seq<string>): Wiped {
    if |names| == 0 then Wiped(vols, c)
    else
      var w, last := WipedEach(vols, plan, c, names[..|names| - 1]), names[|names| - 1];
      if Fails(plan, w.clock) || last !in w.vols then w.(clock := w.clock + 1)
      else Wiped(if Fails(plan, w.clock + 1) then w.vols else w.vols - {last}, w.clock + 2)
  }

  function WipedNamed(vols: set<string>, plan: seq<bool>, c: nat, names: seq<string>): Wiped {
    if |names| == 0 then Wiped(vols, c)
    else if Fails(plan, c) then Wiped(vols, c + 1)
    else WipedEach(vols, plan, c + 1, names)
  }

  datatype Rest = Rest(host: Host, clock: nat)

  /** The deferred function; its own failures are swallowed. */
  function RolledBack(t: Trial, plan: seq<bool>, name: string): Rest {
    var u := if t.defined then Undefined(t.host.domains, plan, t.clock, name)
             else Undefining(t.host.domains, t.clock, false);
    var w := WipedNamed(t.host.vols, plan, u.clock, t.created);
    Rest(Host(u.domains, w.vols), w.clock)
  }

  function Viewed(h: Host, plan: seq<bool>, c: nat, name: string): Outcome
    requires name in h.domains
  {
    var d := h.domains[name];
    if Fails(plan, c + 1) then Errored("get state")
    else Got(if Fails(plan, c) then View(name, "", "", Active(d.power))
             else View(name, d.machineId, d.clusterId, Active(d.power)))
  }

  datatype Attempt = Attempt(host: Host, clock: nat, outcome: Outcome, path: Path)

  function Recover(h: Host, plan: seq<bool>, c: nat, name: string): Attempt
    requires name in h.domains
  {
    var asleep := Asleep(h.domains[name].power);
    if Fails(plan, c) then Attempt(h, c + 1, Errored("get state"), Recovered(name))
    else if asleep && Fails(plan, c + 1) then Attempt(h, c + 2, Errored("start or resume"), Recovered(name))
    else
      var up := if asleep then h.(domains := h.domains[name := h.domains[name].(power := Running)]) else h;
      var next := if asleep then c + 3 else c + 2;                               // past autostart, best effort
      Attempt(up, next + 2, Viewed(up, plan, next, name), Recovered(name))
  }

  function CreateOn(h: Host, plan: seq<bool>, c: nat, name: string, spec: Spec, order: seq<string>): Attempt
    requires forall n :: n in order ==> n in h.domains
  {
    if Fails(plan, c) then Attempt(h, c + 1, Errored("look up domain"), Early)
    else if name in h.domains then Recover(h, plan, c + 1, name)
    else if Fails(plan, c + 1) then Attempt(h, c + 2, Errored("list domains"), Early)
    else
      var l := Find(h.domains, plan, c + 2, spec.machineId, order);
      if l.found.Some? then FoundIsListed(h, plan, c, spec, order); Recover(h, plan, l.clock, l.found.value)
      else Launch(h, plan, l.clock, name, spec)
  }

  /** The part after both lookups came up empty. */
  function Launch(h: Host, plan: seq<bool>, c: nat, name: string, spec: Spec): Attempt {
    var b := Inspected(h.vols, spec.image, plan, c);
    if b.failed then Attempt(h, b.clock, Errored("base image"), Early)
    else
      var t := Provisioned(h, plan, b.clock, name, spec.machineId);
      if t.started then Attempt(t.host, t.clock + 3, Viewed(t.host, plan, t.clock + 1, name), Started)
      else
        var r := RolledBack(t, plan, name);
        Attempt(r.host, r.clock, Errored("provision"), Undone(t.clock))
  }

  lemma FoundIsListed(h: Host, plan: seq<bool>, c: nat, spec: Spec, order: seq<string>)
    requires forall n :: n in order ==> n in h.domains
    ensures var l := Find(h.domains, plan, c + 2, spec.machineId, order); l.found.Some? ==> l.found.value in h.domains
  {
    FindExactly(h.domains, plan, c + 2, spec.machineId, order);
  }

  datatype Deletion = Deletion(host: Host, clock: nat, ok: bool)

  function DeleteOn(h: Host, plan: seq<bool>, c: nat, name: string): Deletion {
    if Fails(plan, c) then Deletion(h, c + 1, false)
    else if name !in h.domains then Deletion(h, c + 1, true)
    else if Fails(plan, c + 1) then Deletion(h, c + 2, false)
    else if Active(h.domains[name].power) then
      if Fails(plan, c + 2) then Deletion(h, c + 3, false)
      else Dismantled(h.(domains := h.domains[name := h.domains[name].(power := Shutoff)]), plan, c + 3, name)
    else Dismantled(h, plan, c + 2, name)
  }

  function Dismantled(h: Host, plan: seq<bool>, c: nat, name: string): Deletion {
    var u := Undefined(h.domains, plan, c, name);
    if u.failed then Deletion(h, u.clock, false)
    else
      var w := WipedNamed(h.vols, plan, u.clock, [Overlay(name), Seed(name)]);
      Deletion(Host(u.domains, w.vols), w.clock, true)
  }

  /* ---- the host ---- */

  class Connection {
    const plan: seq<bool>
    var domains: map<string, Domain>
    var vols: set<string>
    var clock: nat

    function Contents(): Host
      reads this
    {
      Host(domains, vols)
    }

    constructor (domains: map<string, Domain>, vols: set<string>, plan: seq<bool>)
      ensures Contents() == Host(domains, vols) && this.plan == plan && clock == 0
    {
      this.domains, this.vols, this.plan, clock := domains, vols, plan, 0;
    }

    method Step() returns (failed: bool)
      modifies this`clock
      ensures failed == Fails(plan, old(clock)) && clock == old(clock) + 1
    {
      failed := Fails(plan, clock);
      clock := clock + 1;
    }

    method CreateDomain(naming: string -> string, spec: Spec) returns (r: Outcome, ghost order: seq<string>)
      modifies this
      ensures Lists(order, old(domains))
      ensures var name := if |spec.token| > 0 then naming(spec.token) else naming(spec.machineId);
              var a := CreateOn(old(Contents()), plan, old(clock), name, spec, order);
              Contents() == a.host && clock == a.clock && r == a.outcome
    {
      hide Recover, Launch, Find;
      var name := naming(spec.token);
      if spec.token == "" {
        name := naming(spec.machineId);
      }
      var listing := ListDomains();
      order := listing;
      ghost var h, c := Contents(), clock;
      var failed := Step();
      if failed {
        return Errored("look up domain"), order;
      }
      if name in domains {
        r := RecoverDomain(name);
        return;
      }
      failed := Step();
      if failed {
        return Errored("list domains"), order;
      }
      FoundIsListed(h, plan, c, spec, order);
      var found := FindByMachineID(spec.machineId, listing);
      if found.Some? {
        r := RecoverDomain(found.value);
        return;
      }
      r := LaunchDomain(name, spec);
    }

    /** The domains in whatever order libvirt lists them. */
    method ListDomains() returns (order: seq<string>)
      ensures Lists(order, domains)
    {
      order := [];
      var todo := domains.Keys;
      while todo != {}
        invariant todo <= domains.Keys
        invariant forall n :: n in order <==> n in domains && n !in todo
        invariant forall j, k :: 0 <= j < k < |order| ==> order[j] != order[k]
      {
        var n :| n in todo;
        order := order + [n];
        todo := todo - {n};
      }
    }

    method FindByMachineID(mid: string, order: seq<string>) returns (found: Option<string>)
      requires forall n :: n in order ==> n in domains
      modifies this`clock
      ensures var l := Find(domains, plan, old(clock), mid, order); found == l.found && clock == l.clock
    {
      var i := 0;
      while i < |order|
        invariant 0 <= i <= |order|
        invariant Find(domains, plan, clock, mid, order[i..]) == Find(domains, plan, old(clock), mid, order)
      {
        assert order[i..][0] == order[i] && order[i..][1..] == order[i + 1..];
        var unread := Step();
        if (if unread then "" else domains[order[i]].machineId) == mid {
          return Some(order[i]);
        }
        i := i + 1;
      }
      return None;
    }

    method RecoverDomain(name: string) returns (r: Outcome)
      requires name in domains
      modifies this
      ensures var a := Recover(old(Contents()), plan, old(clock), name);
              Contents() == a.host && clock == a.clock && r == a.outcome
    {
      var failed := Step();
      if failed {
        return Errored("get state");
      }
      if Asleep(domains[name].power) {
        failed := Step();
        if failed {
          return Errored("start or resume");
        }
        domains := domains[name := domains[name].(power := Running)];
      }
      failed := Step();                       // autostart, best effort
      r := DomainView(name);
    }

    method DomainView(name: string) returns (r: Outcome)
      requires name in domains
      modifies this`clock
      ensures r == Viewed(Contents(), plan, old(clock), name) && clock == old(clock) + 2
    {
      var unread := Step();
      var failed := Step();
      if failed {
        return Errored("get state");
      }
      var d := domains[name];
      r := Got(View(name, if unread then "" else d.machineId, if unread then "" else d.clusterId, Active(d.power)));
    }

    method LaunchDomain(name: string, spec: Spec) returns (r: Outcome)
      modifies this
      ensures var a := Launch(old(Contents()), plan, old(clock), name, spec);
              Contents() == a.host && clock == a.clock && r == a.outcome
    {
      var failed := InspectBase(spec.image);
      if failed {
        return Errored("base image");
      }
      var created, defined, started := Provision(name, spec.machineId);
      if !started {
        RollBack(created, defined, name);
        return Errored("provision");
      }
      failed := Step();                       // autostart, best effort
      r := DomainView(name);
    }

    method InspectBase(image: string) returns (failed: bool)
      modifies this`clock
      ensures Base(failed, clock) == Inspected(vols, image, plan, old(clock))
    {
      failed := Step();
      if failed {
        return;
      }
      failed := Step();
      if failed || image !in vols {
        return true;
      }
      failed := Step();
      if failed {
        return;
      }
      failed := Step();
      if failed {
        return;
      }
      var unread := Step();
    }

    method CreateOrAdopt(vol: string) returns (failed: bool, created: bool)
      modifies this`clock, this`vols
      ensures Made(vols, clock, failed, if created then [vol] else []) == Adopted(old(vols), plan, old(clock), vol)
    {
      failed := Step();
      if failed {
        return true, false;
      }
      if vol !in vols {
        vols := vols + {vol};
        return false, true;
      }
      failed := Step();
      created := false;
    }

    method WriteSeed(name: string) returns (failed: bool, created: bool)
      modifies this`clock, this`vols
      ensures var m := Seeded(old(vols), plan, old(clock), name);
              m == Made(vols, clock, failed, if created then [Seed(name)] else [])
    {
      hide Adopted, Seed;
      failed := Step();                       // building the ISO
      if failed {
        return true, false;
      }
      failed, created := CreateOrAdopt(Seed(name));
      if failed {
        return;
      }
      failed := Step();                       // upload
      if failed {
        return;
      }
      failed := Step();                       // path
    }

    /** The overlay and seed volumes; `created` collects those that were not adopted. */
    method MakeVolumes(name: string) returns (failed: bool, created: seq<string>)
      modifies this`clock, this`vols
      ensures Made(vols, clock, failed, created) == Volumes(old(vols), plan, old(clock), name)
    {
      hide Adopted, Seeded, Overlay, Seed, Fails;
      created := [];
      var made;
      failed, made := CreateOrAdopt(Overlay(name));
      if made {
        created := created + [Overlay(name)];
      }
      if failed {
        return;
      }
      failed := Step();                       // overlay path
      if failed {
        return;
      }
      failed, made := WriteSeed(name);
      if made {
        created := created + [Seed(name)];
      }
    }

    /** From the overlay volume up to the start of the domain, without the rollback. */
    method Provision(name: string, mid: string) returns (created: seq<string>, defined: bool, started: bool)
      modifies this
      ensures Trial(Contents(), clock, created, defined, started) ==
                Provisioned(old(Contents()), plan, old(clock), name, mid)
    {
      hide Volumes;
      defined, started := false, false;
      var failed;
      failed, created := MakeVolumes(name);
      if failed {
        return;
      }
      failed := Step();                       // metadata
      if failed {
        return;
      }
      failed := Step();                       // define
      if failed {
        return;
      }
      domains := domains[name := Domain(mid, "", Shutoff)];
      defined := true;
      failed := Step();                       // start
      if failed {
        return;
      }
      domains := domains[name := Domain(mid, "", Running)];
      started := true;
    }

    method RollBack(created: seq<string>, defined: bool, name: string)
      modifies this
      ensures var r := RolledBack(Trial(old(Contents()), old(clock), created, defined, false), plan, name);
              Contents() == r.host && clock == r.clock
    {
      if defined {
        var failed := UndefineDomain(name);
      }
      DeleteNamedVolumes(created);
    }

    /** With the flags first, then without; it fails only when both calls do. */
    method UndefineDomain(name: string) returns (failed: bool)
      modifies this`clock, this`domains
      ensures Undefining(domains, clock, failed) == Undefined(old(domains), plan, old(clock), name)
    {
      failed := Step();
      if failed {
        failed := Step();
      }
      if !failed {
        domains := domains - {name};
      }
    }

    method DeleteNamedVolumes(names: seq<string>)
      modifies this`clock, this`vols
      ensures Wiped(vols, clock) == WipedNamed(old(vols), plan, old(clock), names)
    {
      if |names| == 0 {
        return;
      }
      var failed := Step();
      if failed {
        return;
      }
      for k := 0 to |names|
        invariant Wiped(vols, clock) == WipedEach(old(vols), plan, old(clock) + 1, names[..k])
      {
        assert names[..k + 1][..k] == names[..k];
        failed := Step();
        if !failed && names[k] in vols {
          failed := Step();
          if !failed {
            vols := vols - {names[k]};
          }
        }
      }
      assert names[..|names|] == names;
    }

    method DeleteDomain(name: string) returns (ok: bool)
      modifies this
      ensures Deletion(Contents(), clock, ok) == DeleteOn(old(Contents()), plan, old(clock), name)
    {
      var failed := Step();
      if failed {
        return false;
      }
      if name !in domains {
        return true;
      }
      failed := Step();
      if failed {
        return false;
      }
      if Active(domains[name].power) {
        failed := Step();
        if failed {
          return false;
        }
        domains := domains[name := domains[name].(power := Shutoff)];
      }
      failed := UndefineDomain(name);
      if failed {
        return false;
      }
      DeleteNamedVolumes([Overlay(name), Seed(name)]);
      return true;
    }
  }

  /* ---- the lookup ---- */

  /** The lookup comes up empty exactly when every read of a domain of the machine fails. */
  lemma {:induction false} FindExactly(domains: map<string, Domain>, plan: seq<bool>, c: nat, mid: string,
      order: seq<string>)
    requires forall n :: n in order ==> n in domains
    ensures var l := Find(domains, plan, c, mid, order);
            && (mid != "" ==> (l.found == None <==> AllUnread(domains, plan, c, mid, order)))
            && (l.found == None ==> l.clock == c + |order|)
            && (l.found.Some? ==> l.found.value in order && (mid != "" ==> domains[l.found.value].machineId == mid))
    decreases |order|
  {
    if |order| > 0 {
      var rest := order[1..];
      assert forall n :: n in rest ==> n in order;
      FindExactly(domains, plan, c + 1, mid, rest);
      AllUnreadHead(domains, plan, c, mid, order);
    }
  }

  predicate AllUnread(domains: map<string, Domain>, plan: seq<bool>, c: nat, mid: string, order: seq<string>)
    requires forall n :: n in order ==> n in domains
  {
    forall j :: 0 <= j < |order| && domains[order[j]].machineId == mid ==> Fails(plan, c + j)
  }

  lemma AllUnreadHead(domains: map<string, Domain>, plan: seq<bool>, c: nat, mid: string, order: seq<string>)
    requires |order| > 0 && forall n :: n in order ==> n in domains
    ensures forall n :: n in order[1..] ==> n in domains
    ensures AllUnread(domains, plan, c, mid, order) <==>
              && (domains[order[0]].machineId == mid ==> Fails(plan, c))
              && AllUnread(domains, plan, c + 1, mid, order[1..])
  {
    var rest := order[1..];
    assert forall j :: 0 <= j < |rest| ==> rest[j] == order[j + 1];
    if AllUnread(domains, plan, c, mid, order) {
      forall j | 0 <= j < |rest| && domains[rest[j]].machineId == mid
        ensures Fails(plan, c + 1 + j)
      {
        assert domains[order[j + 1]].machineId == mid;
      }
    }
    if (domains[order[0]].machineId == mid ==> Fails(plan, c)) && AllUnread(domains, plan, c + 1, mid, rest) {
      forall j | 0 <= j < |order| && domains[order[j]].machineId == mid
        ensures Fails(plan, c + j)
      {
        if j > 0 {
          assert domains[rest[j - 1]].machineId == mid;
        }
      }
    }
  }

  /* ---- which step does what ---- */

  function Extra(vols: set<string>, vol: string): nat {
    if vol in vols then 1 else 0
  }

  /** Steps from the overlay volume to the define: adopting a volume takes one more. */
  function Work(vols: set<string>, name: string): nat {
    8 + Extra(vols, Overlay(name)) + Extra(vols, Seed(name))
  }

  ghost predicate AllOk(plan: seq<bool>, from: nat, to: nat) {
    forall i :: from <= i < to ==> !Fails(plan, i)
  }

  ghost predicate FirstFailure(plan: seq<bool>, from: nat, at: nat) {
    from <= at && AllOk(plan, from, at) && Fails(plan, at)
  }

  /** Volume work either passes all its steps or stops right after its first failing one. */
  ghost predicate Exact(m: Made, plan: seq<bool>, c: nat, steps: nat) {
    if m.failed then m.clock > c && m.clock <= c + steps && FirstFailure(plan, c, m.clock - 1)
    else m.clock == c + steps && AllOk(plan, c, m.clock)
  }

  predicate Owned(vols: set<string>, m: Made, name: string) {
    && m.vols == vols + (set v | v in m.created)
    && forall v :: v in m.created ==> v !in vols && (v == Overlay(name) || v == Seed(name))
  }

  lemma AdoptedExact(vols: set<string>, plan: seq<bool>, c: nat, vol: string)
    ensures var m := Adopted(vols, plan, c, vol);
            && Exact(m, plan, c, 1 + Extra(vols, vol))
            && m.vols == vols + (set v | v in m.created) && (forall v :: v in m.created ==> v !in vols && v == vol)
            && (!m.failed ==> vol in m.vols)
  {
  }

  lemma SteppedExact(m: Made, plan: seq<bool>, c: nat, steps: nat)
    requires Exact(m, plan, c, steps)
    ensures Exact(Stepped(m, plan), plan, c, steps + 1)
  {
  }

  lemma SeededExact(vols: set<string>, plan: seq<bool>, c: nat, name: string)
    ensures var m := Seeded(vols, plan, c, name);
            && Exact(m, plan, c, 4 + Extra(vols, Seed(name))) && Owned(vols, m, name)
            && (!m.failed ==> Seed(name) in m.vols)
  {
    var m := Adopted(vols, plan, c + 1, Seed(name));
    AdoptedExact(vols, plan, c + 1, Seed(name));
    if !Fails(plan, c) {
      assert Exact(m, plan, c, 2 + Extra(vols, Seed(name)));
      SteppedExact(m, plan, c, 2 + Extra(vols, Seed(name)));
      SteppedExact(Stepped(m, plan), plan, c, 3 + Extra(vols, Seed(name)));
    }
  }

  lemma VolumesExact(vols: set<string>, plan: seq<bool>, c: nat, name: string)
    ensures var m := Volumes(vols, plan, c, name);
            && Exact(m, plan, c, Work(vols, name) - 2) && Owned(vols, m, name)
            && (!m.failed ==> Overlay(name) in m.vols && Seed(name) in m.vols)
  {
    hide Exact, Seeded;
    SuffixesDiffer(name);
    var o := Stepped(Adopted(vols, plan, c, Overlay(name)), plan);
    AdoptedExact(vols, plan, c, Overlay(name));
    SteppedExact(Adopted(vols, plan, c, Overlay(name)), plan, c, 1 + Extra(vols, Overlay(name)));
    SeededExact(o.vols, plan, o.clock, name);
    var s := Seeded(o.vols, plan, o.clock, name);
    VolumesCompose(o, s, plan, c, 2 + Extra(vols, Overlay(name)), 4 + Extra(vols, Seed(name)), o.created + s.created,
                   Work(vols, name) - 2);
  }

  lemma VolumesCompose(o: Made, s: Made, plan: seq<bool>, c: nat, a: nat, b: nat, created: seq<string>, total: nat)
    requires Exact(o, plan, c, a) && total == a + b
    ensures o.failed ==> Exact(o, plan, c, total)
    ensures !o.failed && Exact(s, plan, o.clock, b) ==> Exact(s.(created := created), plan, c, total)
  {
  }

  /** The define is step `c + Work - 1` and the start the one after it; each happens exactly when all before it pass. */
  lemma ProvisionExact(h: Host, plan: seq<bool>, c: nat, name: string, mid: string)
    ensures var t := Provisioned(h, plan, c, name, mid);
            && (t.defined <==> AllOk(plan, c, c + Work(h.vols, name)))
            && (t.started <==> AllOk(plan, c, c + Work(h.vols, name) + 1))
            && (t.defined ==> t.clock == c + Work(h.vols, name) + 1)
            && (!t.started ==> c < t.clock <= c + Work(h.vols, name) + 1 && FirstFailure(plan, c, t.clock - 1))
            && t.host.domains == (if t.defined
                                  then h.domains[name := Domain(mid, "", if t.started then Running else Shutoff)]
                                  else h.domains)
            && Owned(h.vols, Made(t.host.vols, t.clock, false, t.created), name)
            && (t.started ==> t.host.vols == h.vols + {Overlay(name), Seed(name)})
  {
    hide Volumes;
    var v, n := Volumes(h.vols, plan, c, name), Work(h.vols, name);
    VolumesExact(h.vols, plan, c, name);
    SteppedExact(v, plan, c, n - 2);
    SteppedExact(Stepped(v, plan), plan, c, n - 1);
    hide Work;
  }

  lemma InspectExact(vols: set<string>, image: string, plan: seq<bool>, c: nat)
    requires image in vols
    ensures var b := Inspected(vols, image, plan, c);
            && (!b.failed <==> AllOk(plan, c, c + 4)) && (!b.failed ==> b.clock == c + 5)
            && (b.failed ==> c < b.clock <= c + 4 && FirstFailure(plan, c, b.clock - 1))
  {
  }

  lemma {:induction false} WipedEachClean(vols: set<string>, plan: seq<bool>, c: nat, names: seq<string>)
    ensures var w := WipedEach(vols, plan, c, names);
            && w.clock >= c && vols - (set n | n in names) <= w.vols <= vols
            && ((forall i :: i >= c ==> !Fails(plan, i)) ==> w.vols == vols - (set n | n in names))
  {
    if |names| > 0 {
      var init, last := names[..|names| - 1], names[|names| - 1];
      assert names == init + [last];
      WipedEachClean(vols, plan, c, init);
      assert (set n | n in names) == (set n | n in init) + {last};
    }
  }

  lemma WipedClean(vols: set<string>, plan: seq<bool>, c: nat, names: seq<string>)
    ensures var w := WipedNamed(vols, plan, c, names);
            && vols - (set n | n in names) <= w.vols <= vols
            && ((forall i :: i >= c ==> !Fails(plan, i)) ==> w.vols == vols - (set n | n in names))
  {
    WipedEachClean(vols, plan, c + 1, names);
  }

  /** Rolling back removes only what the attempt made, whatever fails, and all of it when nothing more fails. */
  lemma RollBackExact(h: Host, plan: seq<bool>, c: nat, name: string, mid: string)
    requires name !in h.domains && !Provisioned(h, plan, c, name, mid).started
    ensures var t := Provisioned(h, plan, c, name, mid);
            var r := RolledBack(t, plan, name).host;
            && h.vols <= r.vols <= h.vols + {Overlay(name), Seed(name)}
            && (if t.defined && Fails(plan, t.clock) && Fails(plan, t.clock + 1)
                then r.domains == h.domains[name := Domain(mid, "", Shutoff)] else r.domains == h.domains)
            && ((forall i :: i >= t.clock ==> !Fails(plan, i)) ==> r == h)
  {
    hide Provisioned, WipedNamed;
    var t := Provisioned(h, plan, c, name, mid);
    ProvisionExact(h, plan, c, name, mid);
    var u := if t.defined then Undefined(t.host.domains, plan, t.clock, name)
             else Undefining(t.host.domains, t.clock, false);
    WipedClean(t.host.vols, plan, u.clock, t.created);
    assert h.domains[name := Domain(mid, "", Shutoff)] - {name} == h.domains;
  }

  /* ---- faults before the start ---- */

  /** A machine the host has never seen, and a base image to launch it from. */
  ghost predicate New(h: Host, name: string, spec: Spec) {
    && name !in h.domains && spec.image in h.vols && spec.machineId != ""
    && forall n :: n in h.domains ==> h.domains[n].machineId != spec.machineId
  }

  /** The step that starts the domain. */
  function StartStep(h: Host, c: nat, name: string, order: seq<string>): nat {
    c + |order| + 7 + Work(h.vols, name)
  }

  /** Steps up to the start other than the best-effort ones: reading metadata and the base image's format. */
  predicate Critical(h: Host, c: nat, name: string, order: seq<string>, i: nat) {
    c <= i <= StartStep(h, c, name, order) && !(c + 2 <= i < c + 2 + |order|) && i != c + 6 + |order|
  }

  /**
    Under every plan: the domain is launched exactly when no critical step fails, and then it runs
    on its two volumes.
   */
  lemma LaunchesExactlyWhen(h: Host, plan: seq<bool>, c: nat, name: string, spec: Spec, order: seq<string>)
    requires New(h, name, spec) && Lists(order, h.domains)
    ensures var a := CreateOn(h, plan, c, name, spec, order);
            && (a.path.Started? <==> forall i :: Critical(h, c, name, order, i) ==> !Fails(plan, i))
            && (a.path.Started? ==>
                  a.host == Host(h.domains[name := Domain(spec.machineId, "", Running)],
                                 h.vols + {Overlay(name), Seed(name)}))
            && (!a.path.Started? ==> a.outcome.Errored?)
            && (a.path.Early? ==> a.host == h) && !a.path.Recovered?
  {
    hide Provisioned, RolledBack, Find, Inspected, Work;
    FindExactly(h.domains, plan, c + 2, spec.machineId, order);
    InspectExact(h.vols, spec.image, plan, c + 2 + |order|);
    ProvisionExact(h, plan, c + 7 + |order|, name, spec.machineId);
    assert Critical(h, c, name, order, c) && Critical(h, c, name, order, c + 1);
    var q, p := c + 2 + |order|, c + 7 + |order|;
    if forall i :: Critical(h, c, name, order, i) ==> !Fails(plan, i) {
      assert AllOk(plan, q, q + 4) by {
        assert forall i :: q <= i < q + 4 ==> Critical(h, c, name, order, i);
      }
      assert AllOk(plan, p, p + Work(h.vols, name) + 1) by {
        assert forall i :: p <= i < p + Work(h.vols, name) + 1 ==> Critical(h, c, name, order, i);
      }
    }
    assert forall n :: n in order ==> h.domains[n].machineId != spec.machineId;
  }

  /**
    The rollback, under every plan: if nothing fails from the rollback on, the host is as it was, and
    whatever fails the volumes there before, adopted ones included, and all other domains stay.
   */
  lemma RollBackRestores(h: Host, plan: seq<bool>, c: nat, name: string, spec: Spec, order: seq<string>)
    requires Lists(order, h.domains) && CreateOn(h, plan, c, name, spec, order).path.Undone?
    ensures var a := CreateOn(h, plan, c, name, spec, order);
            && ((forall i :: i >= a.path.from ==> !Fails(plan, i)) ==> a.host == h)
            && h.vols <= a.host.vols <= h.vols + {Overlay(name), Seed(name)}
            && name !in h.domains && a.host.domains - {name} == h.domains && a.outcome.Errored?
            && a.path.from > c && Fails(plan, a.path.from - 1)
  {
    hide Provisioned, RolledBack, Find;
    FindExactly(h.domains, plan, c + 2, spec.machineId, order);
    var q := Find(h.domains, plan, c + 2, spec.machineId, order).clock;
    var b := Inspected(h.vols, spec.image, plan, q);
    ProvisionExact(h, plan, b.clock, name, spec.machineId);
    RollBackExact(h, plan, b.clock, name, spec.machineId);
    assert h.domains[name := Domain(spec.machineId, "", Shutoff)] - {name} == h.domains;
    assert h.domains - {name} == h.domains;
  }

  /**
    One failing step anywhere in a create of a new machine: before the domain has started it leaves
    domains and volumes exactly as they were, unless it is one of the best-effort steps, which like
    any step after the start leaves the domain running.
   */
  lemma OneFaultIsHarmless(h: Host, plan: seq<bool>, c: nat, name: string, spec: Spec, order: seq<string>, k: nat)
    requires New(h, name, spec) && Lists(order, h.domains) && k >= c
    requires forall i :: Fails(plan, i) <==> i == k
    ensures var a := CreateOn(h, plan, c, name, spec, order);
            if Critical(h, c, name, order, k) then a.outcome.Errored? && a.host == h
            else a.host == Host(h.domains[name := Domain(spec.machineId, "", Running)],
                                h.vols + {Overlay(name), Seed(name)})
  {
    hide CreateOn, Critical;
    LaunchesExactlyWhen(h, plan, c, name, spec, order);
    if CreateOn(h, plan, c, name, spec, order).path.Undone? {
      RollBackRestores(h, plan, c, name, spec, order);
    }
  }

  /* ---- one domain per machine ---- */

  ghost predicate OnePerMachine(domains: map<string, Domain>) {
    forall a, b :: a in domains && b in domains && SameMachine(domains[a], domains[b]) ==> a == b
  }

  predicate SameMachine(a: Domain, b: Domain) {
    a.machineId != "" && a.machineId == b.machineId
  }

  /** From step q on a launch gets as far as a define that no rollback undoes. */
  ghost predicate Leaves(h: Host, plan: seq<bool>, q: nat, name: string, image: string) {
    var start := q + 5 + Work(h.vols, name);
    && image in h.vols && AllOk(plan, q, q + 4) && AllOk(plan, q + 5, start)
    && (Fails(plan, start) ==> Fails(plan, start + 1) && Fails(plan, start + 2))
  }

  /** The machine has a domain, every read of it in the lookup fails, and the launch then leaves another. */
  ghost predicate Misses(h: Host, plan: seq<bool>, c: nat, name: string, spec: Spec, order: seq<string>)
    requires Lists(order, h.domains)
  {
    && spec.machineId != "" && name !in h.domains
    && (exists n :: n in h.domains && h.domains[n].machineId == spec.machineId)
    && !Fails(plan, c) && !Fails(plan, c + 1) && AllUnread(h.domains, plan, c + 2, spec.machineId, order)
    && Leaves(h, plan, c + 2 + |order|, name, spec.image)
  }

  lemma LaunchLeaves(h: Host, plan: seq<bool>, q: nat, name: string, spec: Spec)
    requires name !in h.domains
    ensures var a := Launch(h, plan, q, name, spec).host.domains;
            if Leaves(h, plan, q, name, spec.image)
            then name in a && a[name].machineId == spec.machineId && a - {name} == h.domains else a == h.domains
  {
    hide Provisioned, RolledBack, Work;
    if spec.image in h.vols {
      InspectExact(h.vols, spec.image, plan, q);
    }
    ProvisionExact(h, plan, q + 5, name, spec.machineId);
    if !Provisioned(h, plan, q + 5, name, spec.machineId).started {
      RollBackExact(h, plan, q + 5, name, spec.machineId);
    }
    assert h.domains[name := Domain(spec.machineId, "", Shutoff)] - {name} == h.domains;
    assert h.domains[name := Domain(spec.machineId, "", Running)] - {name} == h.domains;
  }

  lemma RecoverKeepsMachines(h: Host, plan: seq<bool>, c: nat, name: string)
    requires name in h.domains
    ensures var a := Recover(h, plan, c, name).host;
            && a.vols == h.vols && a.domains.Keys == h.domains.Keys
            && (forall n :: n in h.domains ==> a.domains[n].machineId == h.domains[n].machineId)
            && (forall n :: n in h.domains && n != name ==> a.domains[n] == h.domains[n])
  {
  }

  lemma SameMachines(b: map<string, Domain>, a: map<string, Domain>)
    requires a.Keys <= b.Keys && OnePerMachine(b) && forall n :: n in a ==> a[n].machineId == b[n].machineId
    ensures OnePerMachine(a)
  {
  }

  lemma OneMoreDomain(b: map<string, Domain>, a: map<string, Domain>, name: string, mid: string)
    requires OnePerMachine(b) && name !in b && name in a && a[name].machineId == mid && a - {name} == b
    ensures OnePerMachine(a) <==> mid == "" || forall n :: n in b ==> b[n].machineId != mid
  {
    assert forall n :: n in b ==> n in a - {name} && a[n] == b[n];
    assert forall n :: n in a && n != name ==> n in a - {name};
    if mid != "" && OnePerMachine(a) {
      forall n | n in b
        ensures b[n].machineId != mid
      {
        assert SameMachine(a[n], a[name]) <==> a[n].machineId == mid;
      }
    }
  }

  /**
    A create breaks uniqueness exactly when, before it, the machine has a domain under another name
    and the plan fails every read of it in the lookup but no step up to the define, and not the start
    either unless both undefines fail too.
   */
  lemma DuplicatesExactlyWhen(h: Host, plan: seq<bool>, c: nat, name: string, spec: Spec, order: seq<string>)
    requires OnePerMachine(h.domains) && Lists(order, h.domains)
    ensures OnePerMachine(CreateOn(h, plan, c, name, spec, order).host.domains) <==>
              !Misses(h, plan, c, name, spec, order)
  {
    hide Recover, Launch, Find, Leaves, OnePerMachine;
    var mid := spec.machineId;
    FindExactly(h.domains, plan, c + 2, mid, order);
    if Fails(plan, c) {
    } else if name in h.domains {
      RecoverKeepsMachines(h, plan, c + 1, name);
      SameMachines(h.domains, Recover(h, plan, c + 1, name).host.domains);
    } else if !Fails(plan, c + 1) {
      var l := Find(h.domains, plan, c + 2, mid, order);
      if l.found.Some? {
        RecoverKeepsMachines(h, plan, l.clock, l.found.value);
        SameMachines(h.domains, Recover(h, plan, l.clock, l.found.value).host.domains);
      } else {
        LaunchLeaves(h, plan, l.clock, name, spec);
        if Leaves(h, plan, l.clock, name, spec.image) {
          OneMoreDomain(h.domains, Launch(h, plan, l.clock, name, spec).host.domains, name, mid);
        }
      }
    }
  }

  lemma DeleteKeepsOne(h: Host, plan: seq<bool>, c: nat, name: string)
    requires OnePerMachine(h.domains)
    ensures OnePerMachine(DeleteOn(h, plan, c, name).host.domains)
  {
    hide OnePerMachine, DeleteOn;
    DeleteExact(h, plan, c, name);
    SameMachines(h.domains, DeleteOn(h, plan, c, name).host.domains);
  }

  /** One failing read is enough: the create of a machine that runs already launches it a second time. */
  lemma UnreadDomainIsDuplicated(name: string, other: string, mid: string, token: string, image: string)
    requires name != other && mid != ""
    ensures var h := Host(map[other := Domain(mid, "", Running)], {image});
            var a := CreateOn(h, [false, false, true], 0, name, Spec(mid, token, image), [other]);
            Lists([other], h.domains) && OnePerMachine(h.domains) && !OnePerMachine(a.host.domains)
  {
    hide CreateOn, Work;
    var h := Host(map[other := Domain(mid, "", Running)], {image});
    var plan, spec := [false, false, true], Spec(mid, token, image);
    DuplicatesExactlyWhen(h, plan, 0, name, spec, [other]);
    assert h.domains[other].machineId == mid && Fails(plan, 2);
    assert Misses(h, plan, 0, name, spec, [other]);
  }

  datatype Op =
    | CreateOp(plan: seq<bool>, name: string, spec: Spec, order: seq<string>)
    | DeleteOp(plan: seq<bool>, name: string)

  ghost predicate Takes(b: Host, a: Host, op: Op) {
    match op
    case CreateOp(plan, name, spec, order) =>
      Lists(order, b.domains) && a == CreateOn(b, plan, 0, name, spec, order).host
    case DeleteOp(plan, name) => a == DeleteOn(b, plan, 0, name).host
  }

  ghost predicate OneAtATime(states: seq<Host>, ops: seq<Op>) {
    |states| == |ops| + 1 && forall i :: 0 <= i < |ops| ==> Takes(states[i], states[i + 1], ops[i])
  }

  ghost predicate MissedBy(b: Host, op: Op) {
    op.CreateOp? && Lists(op.order, b.domains) && Misses(b, op.plan, 0, op.name, op.spec, op.order)
  }

  lemma OpKeepsOne(b: Host, a: Host, op: Op)
    requires Takes(b, a, op) && OnePerMachine(b.domains)
    ensures OnePerMachine(a.domains) <==> !MissedBy(b, op)
  {
    hide CreateOn, DeleteOn, OnePerMachine, Misses;
    match op
    case CreateOp(plan, name, spec, order) => DuplicatesExactlyWhen(b, plan, 0, name, spec, order);
    case DeleteOp(plan, name) => DeleteKeepsOne(b, plan, 0, name);
  }

  /**
    Any sequence of creates and deletes, one at a time, with any tokens, plans and listing orders,
    keeps at most one domain per machine id throughout exactly when no create in it misses one.
   */
  lemma {:induction false} OneDomainExactlyWhen(states: seq<Host>, ops: seq<Op>)
    requires OneAtATime(states, ops) && OnePerMachine(states[0].domains)
    ensures (forall i :: 0 <= i < |states| ==> OnePerMachine(states[i].domains)) <==>
              forall i :: 0 <= i < |ops| ==> !MissedBy(states[i], ops[i])
    decreases |ops|
  {
    hide Takes, OnePerMachine, MissedBy;
    if |ops| > 0 {
      var n := |ops| - 1;
      var init, steps := states[..n + 1], ops[..n];
      assert forall i :: 0 <= i < n ==> Takes(init[i], init[i + 1], steps[i]);
      OneDomainExactlyWhen(init, steps);
      assert forall i :: 0 <= i <= n ==> init[i] == states[i];
      if OnePerMachine(states[n].domains) {
        OpKeepsOne(states[n], states[n + 1], ops[n]);
      }
    }
  }

  /** In particular when the lookups' own reads succeed, whatever else fails. */
  lemma AtMostOneDomain(states: seq<Host>, ops: seq<Op>, i: nat)
    requires OneAtATime(states, ops) && i < |states| && OnePerMachine(states[0].domains)
    requires forall k :: 0 <= k < |ops| && ops[k].CreateOp? ==> AllOk(ops[k].plan, 2, 2 + |ops[k].order|)
    ensures OnePerMachine(states[i].domains)
  {
    hide Takes, OnePerMachine;
    forall k | 0 <= k < |ops|
      ensures !MissedBy(states[k], ops[k])
    {
      ReadIsNotMissed(states[k], ops[k]);
    }
    OneDomainExactlyWhen(states, ops);
  }

  lemma ReadIsNotMissed(b: Host, op: Op)
    requires op.CreateOp? ==> AllOk(op.plan, 2, 2 + |op.order|)
    ensures !MissedBy(b, op)
  {
    if op.CreateOp? && Lists(op.order, b.domains) {
      forall n | n in b.domains && b.domains[n].machineId == op.spec.machineId
        ensures !AllUnread(b.domains, op.plan, 2, op.spec.machineId, op.order)
      {
        var j :| 0 <= j < |op.order| && op.order[j] == n;
        assert !Fails(op.plan, 2 + j);
      }
    }
  }

  /* ---- deletes and retries ---- */

  /** A delete reports success only when the domain is gone, and without failures always removes it and both volumes. */
  lemma DeleteExact(h: Host, plan: seq<bool>, c: nat, name: string)
    ensures var d := DeleteOn(h, plan, c, name);
            && (d.ok ==> d.host.domains == h.domains - {name})
            && (!d.ok ==> d.host.vols == h.vols && d.host.domains.Keys == h.domains.Keys)
            && (forall n :: n in h.domains && n != name ==> n in d.host.domains && d.host.domains[n] == h.domains[n])
            && (forall n :: n in d.host.domains ==>
                 n in h.domains && d.host.domains[n].machineId == h.domains[n].machineId)
            && h.vols - {Overlay(name), Seed(name)} <= d.host.vols <= h.vols
            && ((forall i :: i >= c ==> !Fails(plan, i)) ==>
                  d.ok && d.host.vols == if name in h.domains then h.vols - {Overlay(name), Seed(name)} else h.vols)
  {
    hide WipedNamed;
    var names := [Overlay(name), Seed(name)];
    assert (set n | n in names) == {Overlay(name), Seed(name)};
    forall c
      ensures h.vols - {Overlay(name), Seed(name)} <= WipedNamed(h.vols, plan, c, names).vols <= h.vols
      ensures (forall i :: i >= c ==> !Fails(plan, i)) ==>
                WipedNamed(h.vols, plan, c, names).vols == h.vols - {Overlay(name), Seed(name)}
    {
      WipedClean(h.vols, plan, c, names);
    }
    assert name !in h.domains ==> h.domains - {name} == h.domains;
  }

  /** Deleting what a create made removes exactly the domain and its two volumes, adopted ones included. */
  lemma DeleteUndoesCreate(h: Host, plan: seq<bool>, c: nat, name: string, spec: Spec, order: seq<string>,
      calm: seq<bool>)
    requires New(h, name, spec) && Lists(order, h.domains) && CreateOn(h, plan, c, name, spec, order).path.Started?
    requires forall i :: !Fails(calm, i)
    ensures var d := DeleteOn(CreateOn(h, plan, c, name, spec, order).host, calm, 0, name);
            && d.ok && d.host.domains == h.domains && d.host.vols == h.vols - {Overlay(name), Seed(name)}
            && (d.host == h <==> Overlay(name) !in h.vols && Seed(name) !in h.vols)
  {
    hide CreateOn, DeleteOn, Critical;
    LaunchesExactlyWhen(h, plan, c, name, spec, order);
    var made := CreateOn(h, plan, c, name, spec, order).host;
    DeleteExact(made, calm, 0, name);
    assert made.domains - {name} == h.domains;
    assert made.vols - {Overlay(name), Seed(name)} == h.vols - {Overlay(name), Seed(name)};
    assert Overlay(name) in h.vols || Seed(name) in h.vols ==> h.vols - {Overlay(name), Seed(name)} != h.vols;
  }

  /** A repeated create under the same name provisions nothing and, if it answers, shows that domain awake. */
  lemma RetryProvisionsNothing(h: Host, plan: seq<bool>, c: nat, name: string, spec: Spec, order: seq<string>)
    requires Lists(order, h.domains) && name in h.domains
    ensures var a := CreateOn(h, plan, c, name, spec, order);
            && a.host.vols == h.vols && a.host.domains.Keys == h.domains.Keys
            && (forall n :: n in h.domains && n != name ==> a.host.domains[n] == h.domains[n])
            && (a.outcome.Got? ==> a.outcome.view.name == name && !Asleep(a.host.domains[name].power))
  {
    RecoverKeepsMachines(h, plan, c + 1, name);
  }

  /* ---- answers ---- */

  /** A view shows the domain by name and whether it is live; its metadata only if the read succeeds. */
  predicate Shows(d: Domain, name: string, unread: bool, v: View) {
    && v.name == name && (v.running <==> d.power in {Running, Blocked, Paused, PmSuspended})
    && v.machineId == (if unread then "" else d.machineId) && v.clusterId == (if unread then "" else d.clusterId)
  }

  /**
    Recovery under every plan: a domain that is off, crashed, paused or suspended is set running unless
    a call up to that fails, any other is left alone, and the answer shows the domain as it then is.
   */
  lemma RecoverExactly(h: Host, plan: seq<bool>, c: nat, name: string)
    requires name in h.domains
    ensures var a, d := Recover(h, plan, c, name), h.domains[name];
            var wakes := d.power in {Shutoff, Crashed, Paused, PmSuspended};
            var view := if wakes then c + 3 else c + 2;
            && a.host == (if wakes && !Fails(plan, c) && !Fails(plan, c + 1)
                       then h.(domains := h.domains[name := d.(power := Running)]) else h)
            && (a.outcome.Got? <==> !Fails(plan, c) && (wakes ==> !Fails(plan, c + 1)) && !Fails(plan, view + 1))
            && (a.outcome.Got? ==> Shows(a.host.domains[name], name, Fails(plan, view), a.outcome.view))
  {
  }

  lemma ViewShows(h: Host, plan: seq<bool>, c: nat, name: string)
    requires name in h.domains
    ensures var o := Viewed(h, plan, c, name);
            && (o.Got? <==> !Fails(plan, c + 1))
            && (o.Got? ==> Shows(h.domains[name], name, Fails(plan, c), o.view))
  {
  }

  /**
    A delete reports success exactly when the lookup and the state read succeed, a live domain (running,
    blocked, paused or suspended) could be destroyed, and one of the two undefines goes through; when
    there is no such domain the lookup is enough.
   */
  lemma DeleteSucceedsExactlyWhen(h: Host, plan: seq<bool>, c: nat, name: string)
    ensures var live := name in h.domains && h.domains[name].power in {Running, Blocked, Paused, PmSuspended};
            var u := if live then c + 3 else c + 2;
            DeleteOn(h, plan, c, name).ok <==>
              && !Fails(plan, c)
              && (name in h.domains ==>
                    !Fails(plan, c + 1) && (live ==> !Fails(plan, c + 2)) && !(Fails(plan, u) && Fails(plan, u + 1)))
  {
    hide WipedNamed;
  }

  /**
    What a successful create answers with: the domain of its own name, there before or launched just now
    for this machine, or a domain that already carried the machine id.
   */
  lemma CreateAnswers(h: Host, plan: seq<bool>, c: nat, name: string, spec: Spec, order: seq<string>)
    requires Lists(order, h.domains) && CreateOn(h, plan, c, name, spec, order).outcome.Got?
    ensures var a := CreateOn(h, plan, c, name, spec, order);
            var n := a.outcome.view.name;
            && n in a.host.domains
            && (exists unread :: Shows(a.host.domains[n], n, unread, a.outcome.view))
            && (if n in h.domains then n == name || spec.machineId == "" || h.domains[n].machineId == spec.machineId
                else n == name && a.host.domains[n] == Domain(spec.machineId, "", Running) && a.outcome.view.running)
  {
    hide Provisioned, RolledBack, Find, Inspected, Recover, Shows;
    FindExactly(h.domains, plan, c + 2, spec.machineId, order);
    var l := Find(h.domains, plan, c + 2, spec.machineId, order);
    if name in h.domains {
      RecoverExactly(h, plan, c + 1, name);
      ShowsItsName(h, plan, c + 1, name);
    } else if l.found.Some? {
      RecoverExactly(h, plan, l.clock, l.found.value);
      ShowsItsName(h, plan, l.clock, l.found.value);
    } else {
      LaunchAnswers(h, plan, l.clock, name, spec);
    }
  }

  lemma ShowsItsName(h: Host, plan: seq<bool>, c: nat, name: string)
    requires name in h.domains
    ensures var a := Recover(h, plan, c, name);
            a.outcome.Got? ==>
              && a.outcome.view.name == name && name in a.host.domains
              && exists unread :: Shows(a.host.domains[name], name, unread, a.outcome.view)
  {
    RecoverExactly(h, plan, c, name);
    hide Recover, Shows;
  }

  lemma LaunchAnswers(h: Host, plan: seq<bool>, c: nat, name: string, spec: Spec)
    requires name !in h.domains && Launch(h, plan, c, name, spec).outcome.Got?
    ensures var a := Launch(h, plan, c, name, spec);
            && name in a.host.domains && a.host.domains[name] == Domain(spec.machineId, "", Running)
            && a.outcome.view.name == name && a.outcome.view.running
            && exists unread :: Shows(a.host.domains[name], name, unread, a.outcome.view)
  {
    hide Provisioned, RolledBack, Inspected;
    var b := Inspected(h.vols, spec.image, plan, c);
    ProvisionExact(h, plan, b.clock, name, spec.machineId);
    var t := Provisioned(h, plan, b.clock, name, spec.machineId);
    assert Shows(t.host.domains[name], name, Fails(plan, t.clock + 1), Launch(h, plan, c, name, spec).outcome.view);
  }

  /** One failing call while a domain's two volumes are deleted: a failed pool lookup keeps both, any other its own. */
  lemma WipeOneFault(vols: set<string>, plan: seq<bool>, c: nat, a: string, b: string, k: nat)
    requires a != b && a in vols && b in vols && k >= c && forall i :: Fails(plan, i) <==> i == k
    ensures WipedNamed(vols, plan, c, [a, b]).vols ==
              if k == c then vols
              else if k <= c + 2 then vols - {b}
              else if k <= c + 4 then vols - {a}
              else vols - {a, b}
  {
    assert [a, b][..1] == [a] && [a][..0] == [];
    var w := WipedEach(vols, plan, c + 1, [a]);
    assert WipedEach(vols, plan, c + 1, []) == Wiped(vols, c + 1);
  }
}
