/** libvirt/backend.go: slot ids and host refs as text, and reading them back. */
module SlotIdentity {
  import opened Machines
  import Text

  const MAX_INT := 0x7fff_ffff_ffff_ffff

  predicate NoSlash(s: string) {
    '/' !in s
  }

  function Slashed(a: string, x: string): string {
    a + "/" + x
  }

  /** An id with any index text in the last place. */
  function Spelled(provider: string, capacity: CapacityType, instanceType: string, zone: string,
      index: string): string {
    Slashed(Slashed(Slashed(Slashed(provider, CapacityText(capacity)), instanceType), zone), index)
  }

  function SlotId(provider: string, capacity: CapacityType, instanceType: string, zone: string, i: nat): string {
    Spelled(provider, capacity, instanceType, zone, Text.Pad(i, 3))
  }

  /* ---- strings.Split and strings.Join on '/' ---- */

  function LastSlash(s: string): (i: int)
    ensures -1 <= i < |s|
    ensures i == -1 <==> NoSlash(s)
    ensures i >= 0 ==> s[i] == '/' && NoSlash(s[i + 1..])
  {
    if |s| == 0 then -1
    else if s[|s| - 1] == '/' then |s| - 1
    else
      var i := LastSlash(s[..|s| - 1]);
      assert s == s[..|s| - 1] + [s[|s| - 1]];
      assert i >= 0 ==> s[i + 1..] == s[..|s| - 1][i + 1..] + [s[|s| - 1]];
      i
  }

  function Split(s: string): (parts: seq<string>)
    ensures |parts| > 0 && forall p :: p in parts ==> NoSlash(p)
  {
    var i := LastSlash(s);
    if i < 0 then [s] else Split(s[..i]) + [s[i + 1..]]
  }

  function Join(parts: seq<string>): string
    requires |parts| > 0
  {
    if |parts| == 1 then parts[0] else Slashed(Join(parts[..|parts| - 1]), parts[|parts| - 1])
  }

  lemma {:induction false} JoinSplit(s: string)
    ensures Join(Split(s)) == s
  {
    var i := LastSlash(s);
    if i >= 0 {
      JoinSplit(s[..i]);
      hide LastSlash;
      CutAt(s, i);
      assert Split(s) == Split(s[..i]) + [s[i + 1..]];
      hide Split;
      JoinSnoc(Split(s[..i]), s[i + 1..]);
    }
  }

  /** The last slash separates a slash-free tail from everything before it. */
  lemma TailIsUnique(a: string, x: string, b: string, y: string)
    requires NoSlash(x) && NoSlash(y) && Slashed(a, x) == Slashed(b, y)
    ensures a == b && x == y
  {
    var s := Slashed(a, x);
    OneLastSlash(a, x);
    OneLastSlash(b, y);
    assert s[..|a|] == a && s[..|b|] == b && s[|a| + 1..] == x && s[|b| + 1..] == y;
  }

  lemma OneLastSlash(a: string, x: string)
    requires NoSlash(x)
    ensures var s := Slashed(a, x); s[|a|] == '/' && forall k :: |a| < k < |s| ==> s[k] != '/'
  {
    var s := Slashed(a, x);
    assert forall k :: |a| < k < |s| ==> s[k] == x[k - |a| - 1];
  }

  lemma LastSlashIs(a: string, x: string)
    requires NoSlash(x)
    ensures LastSlash(Slashed(a, x)) == |a|
  {
    hide LastSlash;
    var s := Slashed(a, x);
    var i := LastSlash(s);
    assert s[|a|] == '/';
    CutAt(s, i);
    TailIsUnique(a, x, s[..i], s[i + 1..]);
  }

  lemma CutAt(s: string, i: nat)
    requires i < |s| && s[i] == '/'
    ensures s == Slashed(s[..i], s[i + 1..])
  {
  }

  lemma SplitSnoc(a: string, x: string)
    requires NoSlash(x)
    ensures Split(Slashed(a, x)) == Split(a) + [x]
  {
    var s := Slashed(a, x);
    LastSlashIs(a, x);
    assert s[..|a|] == a && s[|a| + 1..] == x;
  }

  /* ---- strconv.Atoi: which strings it takes ---- */

  predicate Atoi(s: string) {
    var digits := if |s| > 0 && (s[0] == '+' || s[0] == '-') then s[1..] else s;
    && |digits| > 0 && Text.AllDigits(digits)
    && Text.Value(digits) <= (if s[0] == '-' then MAX_INT + 1 else MAX_INT)
  }

  function CapacityFromString(s: string): Option<CapacityType> {
    if s == CapacityText(BareMetal) then Some(BareMetal)
    else if s == CapacityText(Reserved) then Some(Reserved)
    else if s == CapacityText(OnDemand) then Some(OnDemand)
    else if s == CapacityText(Spot) then Some(Spot)
    else None
  }

  lemma CapacityRoundTrip(s: string, c: CapacityType)
    ensures CapacityFromString(s) == Some(c) <==> s == CapacityText(c) && c != CapacityUnspecified
  {
  }

  function ParseSlotIdentity(provider: string, catalog: set<string>, id: string, zone: string): Option<(string,
      CapacityType)> {
    var parts := Split(id);
    var n := |parts|;
    if n < 5 then None
    else if Join(parts[..n - 4]) != provider || parts[n - 2] != zone then None
    else if !Atoi(parts[n - 1]) then None
    else
      var capacity := CapacityFromString(parts[n - 4]);
      if capacity == None || parts[n - 3] !in catalog then None else Some((parts[n - 3], capacity.value))
  }

  lemma SplitSpelled(provider: string, capacity: CapacityType, instanceType: string, zone: string, index: string)
    requires NoSlash(instanceType) && NoSlash(zone) && NoSlash(index)
    ensures Split(Spelled(provider, capacity, instanceType, zone, index)) ==
              Split(provider) + [CapacityText(capacity), instanceType, zone, index]
  {
    hide Split, Slashed;
    var a := Slashed(provider, CapacityText(capacity));
    SplitSnoc(provider, CapacityText(capacity));
    SplitSnoc(a, instanceType);
    SplitSnoc(Slashed(a, instanceType), zone);
    SplitSnoc(Slashed(Slashed(a, instanceType), zone), index);
  }

  /**
    What the parser accepts, both ways: exactly the ids of this provider and zone with a known type
    and a numeric index.
   */
  lemma ParsesExactly(provider: string, catalog: set<string>, id: string, zone: string, instanceType: string,
      capacity: CapacityType)
    ensures ParseSlotIdentity(provider, catalog, id, zone) == Some((instanceType, capacity)) <==>
              exists index :: Spelling(provider, catalog, id, zone, instanceType, capacity, index)
  {
    if ParseSlotIdentity(provider, catalog, id, zone) == Some((instanceType, capacity)) {
      ParsedIsSpelled(provider, catalog, id, zone, instanceType, capacity);
    }
    if index :| Spelling(provider, catalog, id, zone, instanceType, capacity, index) {
      SpelledParses(provider, catalog, id, zone, instanceType, capacity, index);
    }
  }

  predicate Spelling(provider: string, catalog: set<string>, id: string, zone: string, instanceType: string,
      capacity: CapacityType, index: string) {
    && id == Spelled(provider, capacity, instanceType, zone, index)
    && NoSlash(instanceType) && NoSlash(zone) && Atoi(index)
    && instanceType in catalog && capacity != CapacityUnspecified
  }

  lemma AtoiHasNoSlash(s: string)
    requires Atoi(s)
    ensures NoSlash(s)
  {
    var digits := if s[0] == '+' || s[0] == '-' then s[1..] else s;
    assert forall i :: 1 <= i < |s| ==> Text.IsDigit(s[i]) by {
      assert forall i :: 1 <= i < |s| ==> s[i] == if digits == s then digits[i] else digits[i - 1];
    }
  }

  lemma SpelledParses(provider: string, catalog: set<string>, id: string, zone: string, instanceType: string,
      capacity: CapacityType, index: string)
    requires Spelling(provider, catalog, id, zone, instanceType, capacity, index)
    ensures ParseSlotIdentity(provider, catalog, id, zone) == Some((instanceType, capacity))
  {
    AtoiHasNoSlash(index);
    SplitSpelled(provider, capacity, instanceType, zone, index);
    var parts := Split(id);
    assert parts[..|parts| - 4] == Split(provider);
    JoinSplit(provider);
    CapacityRoundTrip(CapacityText(capacity), capacity);
  }

  lemma ParsedIsSpelled(provider: string, catalog: set<string>, id: string, zone: string, instanceType: string,
      capacity: CapacityType)
    requires ParseSlotIdentity(provider, catalog, id, zone) == Some((instanceType, capacity))
    ensures exists index :: Spelling(provider, catalog, id, zone, instanceType, capacity, index)
  {
    hide Split, Join;
    var parts := Split(id);
    var n := |parts|;
    JoinSplit(id);
    var front := parts[..n - 4];
    JoinFour(front, parts[n - 4], parts[n - 3], parts[n - 2], parts[n - 1]);
    assert parts == front + [parts[n - 4]] + [parts[n - 3]] + [parts[n - 2]] + [parts[n - 1]];
    CapacityRoundTrip(parts[n - 4], capacity);
    assert Spelling(provider, catalog, id, zone, instanceType, capacity, parts[n - 1]);
  }

  lemma JoinSnoc(parts: seq<string>, x: string)
    requires |parts| > 0
    ensures Join(parts + [x]) == Slashed(Join(parts), x)
  {
    assert (parts + [x])[..|parts|] == parts;
  }

  lemma JoinFour(front: seq<string>, w: string, x: string, y: string, z: string)
    requires |front| > 0
    ensures Join(front + [w] + [x] + [y] + [z]) == Slashed(Slashed(Slashed(Slashed(Join(front), w), x), y), z)
  {
    hide Join, Slashed;
    JoinSnoc(front, w);
    JoinSnoc(front + [w], x);
    JoinSnoc(front + [w] + [x], y);
    JoinSnoc(front + [w] + [x] + [y], z);
  }

  /**
    Reading back a minted slot id gives its type and capacity exactly when neither type nor zone holds
    a slash, the type is catalogued, the capacity is a real one and the index fits an int64; the
    provider label may hold any slashes.
   */
  lemma SlotRoundTrip(provider: string, catalog: set<string>, capacity: CapacityType, instanceType: string,
      zone: string, i: nat)
    ensures var id := SlotId(provider, capacity, instanceType, zone, i);
            ParseSlotIdentity(provider, catalog, id, zone) == Some((instanceType, capacity)) <==>
              && NoSlash(instanceType) && NoSlash(zone)
              && instanceType in catalog && capacity != CapacityUnspecified && i <= MAX_INT
  {
    hide Slashed, ParseSlotIdentity;
    var id, index := SlotId(provider, capacity, instanceType, zone, i), Text.Pad(i, 3);
    Text.PadValue(i, 3);
    assert Text.IsDigit(index[0]);
    ParsesExactly(provider, catalog, id, zone, instanceType, capacity);
    if x :| Spelling(provider, catalog, id, zone, instanceType, capacity, x) {
      AtoiHasNoSlash(x);
      AllDigitsHasNoSlash(index);
      var front := Slashed(Slashed(Slashed(provider, CapacityText(capacity)), instanceType), zone);
      TailIsUnique(front, index, front, x);
    } else {
      assert !Spelling(provider, catalog, id, zone, instanceType, capacity, index);
    }
  }

  lemma AllDigitsHasNoSlash(s: string)
    requires Text.AllDigits(s)
    ensures NoSlash(s)
  {
  }

  lemma CapacityTextsDiffer(a: CapacityType, b: CapacityType)
    requires CapacityText(a) == CapacityText(b)
    ensures a == b
  {
    assert CapacityText(a)[0] == CapacityText(b)[0] && |CapacityText(a)| == |CapacityText(b)|;
  }

  lemma SpelledInjective(p: string, c: CapacityType, t: string, z: string, x: string, p2: string, c2: CapacityType,
      t2: string, z2: string, x2: string)
    requires NoSlash(t) && NoSlash(z) && NoSlash(x) && NoSlash(t2) && NoSlash(z2) && NoSlash(x2)
    requires Spelled(p, c, t, z, x) == Spelled(p2, c2, t2, z2, x2)
    ensures p == p2 && CapacityText(c) == CapacityText(c2) && t == t2 && z == z2 && x == x2
  {
    hide Slashed;
    var a, a2 := Slashed(p, CapacityText(c)), Slashed(p2, CapacityText(c2));
    TailIsUnique(Slashed(Slashed(a, t), z), x, Slashed(Slashed(a2, t2), z2), x2);
    TailIsUnique(Slashed(a, t), z, Slashed(a2, t2), z2);
    TailIsUnique(a, t, a2, t2);
    TailIsUnique(p, CapacityText(c), p2, CapacityText(c2));
  }

  /** Distinct slots have distinct ids, also across provider labels. */
  lemma SlotIdInjective(p: string, c: CapacityType, t: string, z: string, i: nat, p2: string, c2: CapacityType,
      t2: string, z2: string, i2: nat)
    requires NoSlash(t) && NoSlash(z) && NoSlash(t2) && NoSlash(z2)
    requires SlotId(p, c, t, z, i) == SlotId(p2, c2, t2, z2, i2)
    ensures p == p2 && c == c2 && t == t2 && z == z2 && i == i2
  {
    hide Spelled, CapacityText;
    AllDigitsHasNoSlash(Text.Pad(i, 3));
    AllDigitsHasNoSlash(Text.Pad(i2, 3));
    SpelledInjective(p, c, t, z, Text.Pad(i, 3), p2, c2, t2, z2, Text.Pad(i2, 3));
    CapacityTextsDiffer(c, c2);
    Text.PadValue(i, 3);
    Text.PadValue(i2, 3);
  }

  /* ---- host refs ---- */

  datatype HostParts = HostParts(zone: string, domain: string, ok: bool)

  function SplitHostRef(ref: string): HostParts {
    var i := LastSlash(ref);
    if i < 0 then HostParts("", "", false)
    else HostParts(ref[..i], ref[i + 1..], ref[..i] != "" && ref[i + 1..] != "")
  }

  /** A host ref splits into zone and domain exactly when it was put together from them; zones may hold slashes. */
  lemma HostRefRoundTrip(ref: string, zone: string, domain: string)
    ensures SplitHostRef(ref) == HostParts(zone, domain, true) <==>
              ref == zone + "/" + domain && NoSlash(domain) && zone != "" && domain != ""
  {
    if ref == zone + "/" + domain && NoSlash(domain) {
      LastSlashIs(zone, domain);
      assert ref[..|zone|] == zone && ref[|zone| + 1..] == domain;
    }
    var i := LastSlash(ref);
    if i >= 0 {
      assert ref == ref[..i] + "/" + ref[i + 1..];
    }
  }

  /** The index of an id is written in decimal with at least three digits, and reads back. */
  lemma IndexIsWritten(i: nat)
    ensures |Text.Pad(i, 3)| >= 3 && Text.AllDigits(Text.Pad(i, 3)) && Text.Value(Text.Pad(i, 3)) == i
    ensures |Text.Pad(i, 3)| > 3 ==> Text.Pad(i, 3) == Text.Dec(i)
  {
    hide Text.Value, Text.Dec;
    Text.PadValue(i, 3);
  }

  /** An id as it is written: five parts, the last one the index. */
  lemma SlotIdIsWritten(provider: string, instanceType: string, zone: string, i: nat)
    ensures SlotId(provider, Spot, instanceType, zone, i) ==
              provider + "/Spot/" + instanceType + "/" + zone + "/" + Text.Pad(i, 3)
  {
    hide Text.Pad;
    var index := Text.Pad(i, 3);
    assert Slashed(provider, "Spot") + "/" == provider + "/Spot/";
    assert Slashed(Slashed(provider, "Spot"), instanceType) == provider + "/Spot/" + instanceType;
  }
}
