/**
  Single-quoting for /bin/sh (aws/ec2real.go, libvirt/libvirtreal.go) and the word parser of the
  IEEE Std 1003.1 Shell Command Language that has to undo it.
 */
module ShellQuote {

  newtype Byte = b: int | 0 <= b < 256

  const NUL: Byte := 0
  const TAB: Byte := 9
  const NEWLINE: Byte := 10
  const SPACE: Byte := 32
  const QUOTE: Byte := 39
  const BACKSLASH: Byte := 92

  datatype Word = Word(text: seq<Byte>, rest: seq<Byte>) | Unparsable

  /** The four bytes a quote turns into: close, escaped quote, reopen. */
  const ESCAPE: seq<Byte> := [QUOTE, BACKSLASH, QUOTE, QUOTE]

  function Escaped(s: seq<Byte>): seq<Byte> {
    if |s| == 0 then []
    else Escaped(s[..|s| - 1]) + (if s[|s| - 1] == QUOTE then ESCAPE else [s[|s| - 1]])
  }

  function Quoted(s: seq<Byte>): seq<Byte> {
    [QUOTE] + Escaped(s) + [QUOTE]
  }

  /** The AWS version: one byte at a time. */
  method QuoteByBytes(s: seq<Byte>) returns (out: seq<Byte>)
    ensures out == Quoted(s)
  {
    out := [QUOTE];
    for i := 0 to |s|
      invariant out == [QUOTE] + Escaped(s[..i])
    {
      assert s[..i + 1][..i] == s[..i];
      if s[i] == QUOTE {
        out := out + ESCAPE;
      } else {
        out := out + [s[i]];
      }
    }
    assert s[..|s|] == s;
    out := out + [QUOTE];
  }

  /** The libvirt version: replace every quote, copying the stretches between them whole. */
  method QuoteByReplacing(s: seq<Byte>) returns (out: seq<Byte>)
    ensures out == Quoted(s)
  {
    out := [QUOTE];
    var start := 0;
    while start < |s|
      invariant 0 <= start <= |s|
      invariant out == [QUOTE] + Escaped(s[..start])
    {
      var j := start;
      while j < |s| && s[j] != QUOTE
        invariant start <= j <= |s|
        invariant forall k :: start <= k < j ==> s[k] != QUOTE
      {
        j := j + 1;
      }
      PlainStretch(s, start, j);
      out := out + s[start..j];
      start := j;
      if j < |s| {
        assert s[..j + 1][..j] == s[..j];
        out := out + ESCAPE;
        start := j + 1;
      }
    }
    assert s[..start] == s;
    out := out + [QUOTE];
  }

  lemma {:induction false} PlainStretch(s: seq<Byte>, a: nat, b: nat)
    requires a <= b <= |s| && forall k :: a <= k < b ==> s[k] != QUOTE
    ensures Escaped(s[..b]) == Escaped(s[..a]) + s[a..b]
  {
    if a < b {
      PlainStretch(s, a, b - 1);
      assert s[..b][..b - 1] == s[..b - 1];
      assert s[a..b] == s[a..b - 1] + [s[b - 1]];
    }
  }

  /* ---- the shell's side ---- */

  predicate EndsWord(c: Byte) {
    c == SPACE || c == TAB || c == NEWLINE
  }

  /** Characters that would start an expansion, an operator or another kind of quoting. */
  predicate Special(c: Byte) {
    c == NUL
    || c == 34 || c == 36 || c == 96                                     // double-quote, $, backquote
    || c == 38 || c == 40 || c == 41 || c == 59 || c == 60 || c == 62 || c == 124   // & ( ) ; < > |
    || c == 42 || c == 63 || c == 91 || c == 126 || c == 35              // * ? [ ~ #
  }

  /**
    Reads one word outside quotes. Section 2.2.1 (escape character): a backslash keeps the next
    character, and vanishes with a newline. Section 2.2.2 (single-quotes): everything up to the next
    single-quote is literal.
   */
  function ParseWord(input: seq<Byte>): Word
    decreases |input|
  {
    if |input| == 0 || EndsWord(input[0]) then Word([], input)
    else if input[0] == QUOTE then InQuotes(input[1..])
    else if input[0] == BACKSLASH then
      if |input| == 1 || input[1] == NUL then Unparsable
      else if input[1] == NEWLINE then ParseWord(input[2..])
      else Prefixed(input[1], ParseWord(input[2..]))
    else if Special(input[0]) then Unparsable
    else Prefixed(input[0], ParseWord(input[1..]))
  }

  function InQuotes(input: seq<Byte>): Word
    decreases |input|
  {
    if |input| == 0 || input[0] == NUL then Unparsable
    else if input[0] == QUOTE then ParseWord(input[1..])
    else Prefixed(input[0], InQuotes(input[1..]))
  }

  function Prefixed(c: Byte, w: Word): Word {
    if w.Word? then w.(text := [c] + w.text) else Unparsable
  }

  function Escape(c: Byte): seq<Byte> {
    if c == QUOTE then ESCAPE else [c]
  }

  /** Escaping peels off at the front as well. */
  lemma {:induction false} EscapedHead(s: seq<Byte>)
    requires |s| > 0
    ensures Escaped(s) == Escape(s[0]) + Escaped(s[1..])
  {
    var n := |s| - 1;
    if n > 0 {
      EscapedHead(s[..n]);
      assert s[1..][..n - 1] == s[..n][1..];
    }
  }

  /** Inside the quotes, the escaped text followed by the closing quote reads back as the text. */
  lemma {:induction false} QuotedReads(s: seq<Byte>, tail: seq<Byte>)
    requires |tail| == 0 || EndsWord(tail[0])
    ensures InQuotes(Escaped(s) + [QUOTE] + tail) == if NUL in s then Unparsable else Word(s, tail)
    decreases |s|
  {
    hide Escaped, Escape, InQuotes;
    if |s| == 0 {
      QuotedEmpty(tail);
    } else {
      var next := Escaped(s[1..]) + [QUOTE] + tail;
      QuotedReads(s[1..], tail);
      EscapedHead(s);
      assert Escaped(s) + [QUOTE] + tail == Escape(s[0]) + next;
      ReadsOne(s[0], next);
      assert s == [s[0]] + s[1..];
    }
  }

  lemma QuotedEmpty(tail: seq<Byte>)
    requires |tail| == 0 || EndsWord(tail[0])
    ensures InQuotes(Escaped([]) + [QUOTE] + tail) == Word([], tail)
  {
    assert ([QUOTE] + tail)[1..] == tail;
    assert Escaped([]) + [QUOTE] + tail == [QUOTE] + tail;
  }

  lemma ReadsOne(c: Byte, next: seq<Byte>)
    ensures InQuotes(Escape(c) + next) == if c == NUL then Unparsable else Prefixed(c, InQuotes(next))
  {
    if c == QUOTE {
      ReadsEscape(next);
    } else {
      assert ([c] + next)[1..] == next;
    }
  }

  /** Close, escaped quote, reopen: one literal quote. */
  lemma ReadsEscape(next: seq<Byte>)
    ensures InQuotes(ESCAPE + next) == Prefixed(QUOTE, InQuotes(next))
  {
    var input := ESCAPE + next;
    assert input[1..][0] == BACKSLASH && input[1..][1] == QUOTE;
    assert input[1..][2..][0] == QUOTE;
    assert input[1..][2..][1..] == next;
    assert InQuotes(input) == ParseWord(input[1..]);
    assert ParseWord(input[1..]) == Prefixed(QUOTE, ParseWord(input[1..][2..]));
  }

  /**
    Whatever the bytes, a quoted string that ends its line or is followed by a blank is read by the
    shell as one word with exactly those bytes, and what follows is untouched; this fails exactly for
    strings that hold a NUL.
   */
  lemma QuotingIsUndone(s: seq<Byte>, tail: seq<Byte>)
    requires |tail| == 0 || EndsWord(tail[0])
    ensures ParseWord(Quoted(s) + tail) == Word(s, tail) <==> NUL !in s
  {
    QuotedReads(s, tail);
    assert (Quoted(s) + tail)[1..] == Escaped(s) + [QUOTE] + tail;
  }

  /** Two different strings never share a quoted form. */
  lemma QuotingIsInjective(a: seq<Byte>, b: seq<Byte>)
    requires NUL !in a && NUL !in b && Quoted(a) == Quoted(b)
    ensures a == b
  {
    QuotingIsUndone(a, []);
    QuotingIsUndone(b, []);
  }
}
