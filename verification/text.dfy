/** The few JavaScript string operations the components rely on:
    `String.prototype.split` with a one-character separator, `trim`, and
    `Number.prototype.toString` on integers. */
module Text {

  // ---------------------------------------------------------------------------
  // split / join
  // ---------------------------------------------------------------------------

  /** `s.split(sep)`: the pieces between occurrences of `sep`, left to right.
      As in JavaScript, there is always at least one piece (`"".split(";")`
      is `[""]`) and a trailing separator yields a trailing empty piece. */
  function Split(s: string, sep: char): (parts: seq<string>)
    ensures |parts| >= 1
    ensures forall i :: 0 <= i < |parts| ==> sep !in parts[i]
    decreases |s|
  {
    if |s| == 0 then [""]
    else
      var rest := Split(s[1..], sep);
      if s[0] == sep then [""] + rest
      else [[s[0]] + rest[0]] + rest[1..]
  }

  /** `parts.join(sep)`. */
  function Join(parts: seq<string>, sep: char): string
    requires |parts| >= 1
    decreases |parts|
  {
    if |parts| == 1 then parts[0] else parts[0] + [sep] + Join(parts[1..], sep)
  }

  /** Splitting loses nothing: joining the pieces back gives the input. */
  lemma {:induction false} JoinSplit(s: string, sep: char)
    ensures Join(Split(s, sep), sep) == s
    decreases |s|
  {
    if |s| > 0 {
      var rest := Split(s[1..], sep);
      JoinSplit(s[1..], sep);
      if s[0] == sep {
        assert Split(s, sep) == [""] + rest;
        assert ([""] + rest)[1..] == rest;
        assert s == [sep] + s[1..];
      } else {
        var parts := [[s[0]] + rest[0]] + rest[1..];
        assert Split(s, sep) == parts;
        if |rest| == 1 {
          assert s == [s[0]] + rest[0];
        } else {
          assert parts[1..] == rest[1..];
          assert Join(rest, sep) == rest[0] + [sep] + Join(rest[1..], sep);
          assert s == [s[0]] + s[1..];
        }
      }
    }
  }

  /** The second piece of `pre + rest`, when `pre` ends in the separator and
      has no other occurrence of it: the text of `rest` up to its first
      separator (or all of it). */
  lemma {:induction false} SecondPieceAfterPrefix(pre: string, t: string, tail: string, sep: char)
    requires |pre| >= 1 && pre[|pre| - 1] == sep && sep !in pre[..|pre| - 1]
    requires sep !in t
    requires tail == [] || tail[0] == sep
    ensures |Split(pre + t + tail, sep)| >= 2
    ensures Split(pre + t + tail, sep)[1] == t
    decreases |pre|
  {
    if |pre| == 1 {
      assert (pre + t + tail)[1..] == t + tail;
      TextBeforeSeparator(t, tail, sep);
    } else {
      assert (pre + t + tail)[1..] == pre[1..] + t + tail;
      assert pre[1..][..|pre[1..]| - 1] == pre[..|pre| - 1][1..];
      SecondPieceAfterPrefix(pre[1..], t, tail, sep);
      assert pre[0] != sep by { assert pre[0] == pre[..|pre| - 1][0]; }
    }
  }

  /** The first piece of `t + tail` is `t` when `t` holds no separator and
      `tail` is empty or starts with one. */
  lemma {:induction false} TextBeforeSeparator(t: string, tail: string, sep: char)
    requires sep !in t
    requires tail == [] || tail[0] == sep
    ensures Split(t + tail, sep)[0] == t
    decreases |t|
  {
    if |t| == 0 {
      assert t + tail == tail;
    } else {
      assert (t + tail)[1..] == t[1..] + tail;
      TextBeforeSeparator(t[1..], tail, sep);
      assert t == [t[0]] + t[1..];
    }
  }

  // ---------------------------------------------------------------------------
  // trim
  // ---------------------------------------------------------------------------

  /** The characters `String.prototype.trim` removes: ECMAScript WhiteSpace
      (tab, vertical tab, form feed, space, no-break space, byte order mark
      and the Unicode space separators) and LineTerminator. */
  predicate IsWhitespace(c: char)
  {
    c == '\t' || c == '\n' || c == '\U{0B}' || c == '\U{0C}' || c == '\r' || c == ' '
    || c == '\U{A0}' || c == '\U{1680}' || ('\U{2000}' <= c <= '\U{200A}')
    || c == '\U{2028}' || c == '\U{2029}' || c == '\U{202F}' || c == '\U{205F}'
    || c == '\U{3000}' || c == '\U{FEFF}'
  }

  /** How many whitespace characters `s` starts with. */
  function LeadingSpace(s: string): (k: nat)
    ensures k <= |s|
    ensures forall i :: 0 <= i < k ==> IsWhitespace(s[i])
    ensures k < |s| ==> !IsWhitespace(s[k])
    decreases |s|
  {
    if |s| > 0 && IsWhitespace(s[0]) then 1 + LeadingSpace(s[1..]) else 0
  }

  /** Where the run of whitespace that `s` ends with begins. */
  function TrailingSpace(s: string): (k: nat)
    ensures k <= |s|
    ensures forall i :: k <= i < |s| ==> IsWhitespace(s[i])
    ensures k > 0 ==> !IsWhitespace(s[k - 1])
    decreases |s|
  {
    if |s| > 0 && IsWhitespace(s[|s| - 1]) then TrailingSpace(s[..|s| - 1]) else |s|
  }

  /** `s.trim()`: the middle of `s` once the whitespace at both ends is cut
      away; everything cut away is whitespace and the result neither starts
      nor ends with whitespace. */
  function Trim(s: string): (r: string)
    ensures r == [] || (!IsWhitespace(r[0]) && !IsWhitespace(r[|r| - 1]))
    ensures exists i, j :: 0 <= i <= j <= |s| && r == s[i..j]
                           && (forall k :: 0 <= k < i ==> IsWhitespace(s[k]))
                           && (forall k :: j <= k < |s| ==> IsWhitespace(s[k]))
  {
    var i := LeadingSpace(s);
    var j := i + TrailingSpace(s[i..]);
    assert forall k :: j <= k < |s| ==> IsWhitespace(s[k]) by {
      forall k | j <= k < |s| ensures IsWhitespace(s[k]) { assert s[k] == s[i..][k - i]; }
    }
    assert s[i..][..j - i] == s[i..j];
    assert i < j ==> s[i..j][0] == s[i];
    s[i..][..j - i]
  }

  /** Trimming twice is trimming once. */
  lemma TrimIdempotent(s: string)
    ensures Trim(Trim(s)) == Trim(s)
  {
    var r := Trim(s);
    assert LeadingSpace(r) == 0;
    assert TrailingSpace(r) == |r|;
    assert r[0..][..|r|] == r;
  }

  // ---------------------------------------------------------------------------
  // integers as decimal text
  // ---------------------------------------------------------------------------

  predicate IsDigit(c: char)
  {
    '0' <= c <= '9'
  }

  function DigitChar(d: nat): (c: char)
    requires d < 10
    ensures IsDigit(c)
  {
    ['0', '1', '2', '3', '4', '5', '6', '7', '8', '9'][d]
  }

  function DigitValue(c: char): (d: nat)
    requires IsDigit(c)
    ensures d < 10 && DigitChar(d) == c
  {
    (c as int - '0' as int) as nat
  }

  /** The value of a string of decimal digits. */
  function ParseNat(s: string): nat
    requires forall i :: 0 <= i < |s| ==> IsDigit(s[i])
    decreases |s|
  {
    if |s| == 0 then 0 else 10 * ParseNat(s[..|s| - 1]) + DigitValue(s[|s| - 1])
  }

  /** `n.toString()` for a non-negative integer: its shortest decimal
      digits, with no leading zero. */
  function NatToString(n: nat): (s: string)
    ensures |s| >= 1
    ensures forall i :: 0 <= i < |s| ==> IsDigit(s[i])
    ensures |s| > 1 ==> s[0] != '0'
    decreases n
  {
    if n < 10 then [DigitChar(n)] else NatToString(n / 10) + [DigitChar(n % 10)]
  }

  /** Reading back the digits of `n` gives `n`. */
  lemma {:induction false} ParseNatToString(n: nat)
    ensures ParseNat(NatToString(n)) == n
    decreases n
  {
    var s := NatToString(n);
    assert s[..|s| - 1] == if n < 10 then [] else NatToString(n / 10);
    if n >= 10 {
      ParseNatToString(n / 10);
    }
  }

  /** `n.toString()` for an integer: a minus sign before the digits of its
      magnitude when it is negative. */
  function IntToString(n: int): (s: string)
    ensures |s| >= 1
    ensures (s[0] == '-') <==> n < 0
  {
    if n < 0 then "-" + NatToString(-n) else NatToString(n)
  }

  /** Distinct integers have distinct decimal forms, so comparing ids as
      strings is the same as comparing them as numbers. */
  lemma IntToStringInjective(a: int, b: int)
    ensures IntToString(a) == IntToString(b) <==> a == b
  {
    if IntToString(a) == IntToString(b) {
      var s := IntToString(a);
      if a < 0 {
        assert b < 0;
        NegativeDigits(a);
        NegativeDigits(b);
        NatToStringInjective(-a, -b);
      } else {
        assert b >= 0;
        NatToStringInjective(a, b);
      }
    }
  }

  lemma NegativeDigits(n: int)
    requires n < 0
    ensures IntToString(n)[1..] == NatToString(-n)
  {
    assert IntToString(n) == "-" + NatToString(-n);
  }

  lemma NatToStringInjective(m: nat, n: nat)
    requires NatToString(m) == NatToString(n)
    ensures m == n
  {
    ParseNatToString(m);
    ParseNatToString(n);
  }
}
