/** Decimal rendering as Go's strconv and fmt verbs do it, and the injectivity of the ids built from it. */
module Text {

  predicate IsDigit(c: char) {
    '0' <= c <= '9'
  }

  predicate AllDigits(s: string) {
    forall i :: 0 <= i < |s| ==> IsDigit(s[i])
  }

  function Digit(n: nat): char
    requires n < 10
  {
    '0' + n as char
  }

  /** strconv.FormatInt(n, 10) for a non-negative n. */
  function Dec(n: nat): (s: string)
    ensures |s| > 0 && AllDigits(s)
  {
    if n < 10 then [Digit(n)] else Dec(n / 10) + [Digit(n % 10)]
  }

  /** The number a digit string denotes; leading zeros do not matter. */
  function Value(s: string): nat
    requires AllDigits(s)
  {
    if |s| == 0 then 0
    else Value(s[..|s| - 1]) * 10 + (s[|s| - 1] as int - '0' as int)
  }

  function Zeros(n: nat): (s: string)
    ensures |s| == n && AllDigits(s)
  {
    if n == 0 then "" else Zeros(n - 1) + "0"
  }

  /** fmt.Sprintf("%0<width>d", n) for a non-negative n. */
  function Pad(n: nat, width: nat): (s: string)
    ensures |s| > 0 && AllDigits(s)
  {
    var d := Dec(n);
    if |d| >= width then d else Zeros(width - |d|) + d
  }

  lemma {:induction false} DecValue(n: nat)
    ensures Value(Dec(n)) == n
  {
    if n >= 10 {
      DecValue(n / 10);
      assert Dec(n)[..|Dec(n)| - 1] == Dec(n / 10);
    }
  }

  lemma {:induction false} LeadingZeros(n: nat, s: string)
    requires AllDigits(s)
    ensures Value(Zeros(n) + s) == Value(s)
  {
    if |s| > 0 {
      var t := Zeros(n) + s;
      assert t[..|t| - 1] == Zeros(n) + s[..|s| - 1];
      LeadingZeros(n, s[..|s| - 1]);
    } else if n > 0 {
      var t := Zeros(n) + s;
      assert t[..|t| - 1] == Zeros(n - 1) + s;
      LeadingZeros(n - 1, s);
    }
  }

  lemma PadValue(n: nat, width: nat)
    ensures Value(Pad(n, width)) == n
  {
    DecValue(n);
    if |Dec(n)| < width {
      LeadingZeros(width - |Dec(n)|, Dec(n));
    }
  }

  /**
    Ids of the form prefix-N never collide, not even under two different prefixes:
    the digits after the last dash are the counter.
   */
  lemma DashedInjective(p: string, n: nat, q: string, m: nat)
    requires p + "-" + Dec(n) == q + "-" + Dec(m)
    ensures p == q && n == m
  {
    var s, d, e := p + "-" + Dec(n), Dec(n), Dec(m);
    assert s[|p|] == '-' && s[|q|] == '-';
    assert forall i :: |p| < i < |s| ==> IsDigit(s[i]) by {
      assert forall i :: |p| < i < |s| ==> s[i] == d[i - |p| - 1];
    }
    assert forall i :: |q| < i < |s| ==> IsDigit(s[i]) by {
      assert forall i :: |q| < i < |s| ==> s[i] == e[i - |q| - 1];
    }
    assert |p| == |q|;
    assert s[..|p|] == p && s[..|q|] == q;
    assert s[|p| + 1..] == d && s[|q| + 1..] == e;
    DecValue(n);
    DecValue(m);
  }
}
