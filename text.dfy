/**
 * String helpers shared by the scraper, the lead pages and the API route:
 * the parts of JavaScript's String API that the modelled code relies on.
 * Strings are sequences of Unicode scalar values.
 */
module Text {

  /** The characters `String.prototype.trim` removes: WhiteSpace and LineTerminator of ECMAScript. */
  predicate IsWhitespace(c: char) {
    c == ' ' || c == '\t' || c == '\n' || c == '\r' || c == '\U{B}' || c == '\U{C}'
    || c == '\U{A0}' || c == '\U{1680}' || ('\U{2000}' <= c <= '\U{200A}')
    || c == '\U{2028}' || c == '\U{2029}' || c == '\U{202F}' || c == '\U{205F}'
    || c == '\U{3000}' || c == '\U{FEFF}'
  }

  /** The ASCII decimal digits, which is what `\d` matches in a JavaScript regular expression. */
  predicate IsDigit(c: char) {
    '0' <= c <= '9'
  }

  predicate AllDigits(s: string) {
    forall i | 0 <= i < |s| :: IsDigit(s[i])
  }

  /** Drops leading whitespace. */
  function TrimStart(s: string): (r: string)
    ensures |r| <= |s| && r == s[|s| - |r|..]
    ensures r == [] || !IsWhitespace(r[0])
    ensures forall k | 0 <= k < |s| - |r| :: IsWhitespace(s[k])
  {
    if s != [] && IsWhitespace(s[0]) then TrimStart(s[1..]) else s
  }

  /** Drops trailing whitespace. */
  function TrimEnd(s: string): (r: string)
    ensures |r| <= |s| && r == s[..|r|]
    ensures r == [] || !IsWhitespace(r[|r| - 1])
    ensures forall k | |r| <= k < |s| :: IsWhitespace(s[k])
  {
    if s != [] && IsWhitespace(s[|s| - 1]) then TrimEnd(s[..|s| - 1]) else s
  }

  /** `s.trim()`: the text is empty exactly when `s` holds nothing but whitespace. */
  function Trim(s: string): (r: string)
    ensures r == [] || (!IsWhitespace(r[0]) && !IsWhitespace(r[|r| - 1]))
    ensures r == [] <==> forall k | 0 <= k < |s| :: IsWhitespace(s[k])
    ensures exists i: nat :: TrimmedAt(s, r, i)
  {
    var t := TrimStart(s);
    var r := TrimEnd(t);
    assert r != [] ==> r[0] == t[0];
    var i := |s| - |t|;
    assert r == s[i..i + |r|];
    assert forall k | i + |r| <= k < |s| :: s[k] == t[k - i];
    assert TrimmedAt(s, r, i);
    r
  }

  /** `r` is the slice of `s` at `i`, and everything around it is whitespace. */
  predicate TrimmedAt(s: string, r: string, i: nat) {
    && i + |r| <= |s|
    && r == s[i..i + |r|]
    && (forall k | 0 <= k < i :: IsWhitespace(s[k]))
    && (forall k | i + |r| <= k < |s| :: IsWhitespace(s[k]))
  }

  /** `s.includes(t)`: `t` occurs in `s` as a contiguous piece. */
  predicate Contains(s: string, t: string)
    decreases |s|
  {
    t <= s || (s != [] && Contains(s[1..], t))
  }

  /** `t` occurs in `s` starting at position `i`. */
  predicate OccursAt(s: string, t: string, i: nat) {
    i + |t| <= |s| && s[i..i + |t|] == t
  }

  /** `Contains` agrees with the statement "some slice of `s` equals `t`". */
  lemma {:induction false} ContainsIff(s: string, t: string)
    ensures Contains(s, t) <==> exists i: nat :: OccursAt(s, t, i)
    decreases |s|
  {
    if t <= s {
      assert OccursAt(s, t, 0);
    } else if s == [] {
    } else {
      ContainsIff(s[1..], t);
      if exists i: nat :: OccursAt(s, t, i) {
        var i: nat :| OccursAt(s, t, i);
        assert i != 0;
        assert OccursAt(s[1..], t, i - 1);
      }
      if Contains(s[1..], t) {
        var i: nat :| OccursAt(s[1..], t, i);
        assert OccursAt(s, t, i + 1);
      }
    }
  }

  /** A string contains whatever is spliced into it. */
  lemma {:induction false} ContainsSpliced(a: string, t: string, b: string)
    ensures Contains(a + t + b, t)
    decreases |a|
  {
    if a == [] {
      assert t <= a + t + b;
    } else {
      ContainsSpliced(a[1..], t, b);
      assert (a + t + b)[1..] == a[1..] + t + b;
    }
  }

  /** ASCII-only `toLowerCase` for one character. */
  function LowerChar(c: char): char {
    if 'A' <= c <= 'Z' then (c as int + 32) as char else c
  }

  /** ASCII-only `toLowerCase`. */
  function Lower(s: string): (r: string)
    ensures |r| == |s|
    ensures forall i | 0 <= i < |s| :: r[i] == LowerChar(s[i])
  {
    if s == [] then [] else [LowerChar(s[0])] + Lower(s[1..])
  }

  /**
   * `s.split("/").pop()`: the text after the last "/", or all of `s` when it
   * has none; the longest suffix of `s` without a slash.
   */
  function LastSegment(s: string): (r: string)
    ensures |r| <= |s| && r == s[|s| - |r|..]
    ensures '/' !in r
    ensures |r| < |s| ==> s[|s| - |r| - 1] == '/'
  {
    if s == [] then []
    else if s[|s| - 1] == '/' then []
    else LastSegment(s[..|s| - 1]) + [s[|s| - 1]]
  }

  /** `s.indexOf(c)`: the position of the first `c`, or -1. */
  function IndexOf(s: string, c: char): (k: int)
    ensures -1 <= k < |s|
    ensures k == -1 <==> c !in s
    ensures k >= 0 ==> s[k] == c && c !in s[..k]
  {
    if s == [] then -1
    else if s[0] == c then 0
    else
      var k := IndexOf(s[1..], c);
      if k == -1 then -1
      else
        assert s[..k + 1] == [s[0]] + s[1..][..k];
        k + 1
  }

  /** `s.replace(c, "")` with a one-character string pattern: only the first occurrence goes. */
  function RemoveFirst(s: string, c: char): (r: string)
    ensures c !in s ==> r == s
    ensures c in s ==> |r| == |s| - 1 && multiset(r) == multiset(s) - multiset{c}
    ensures c in s ==> var k := IndexOf(s, c); r == s[..k] + s[k + 1..]
  {
    var k := IndexOf(s, c);
    if k < 0 then s
    else
      assert s == s[..k] + [s[k]] + s[k + 1..];
      s[..k] + s[k + 1..]
  }

  /**
   * A JavaScript `a || b || ... || default` chain over strings: the first
   * candidate that is not empty, or `default` when all are empty.
   */
  function FirstNonEmpty(cands: seq<string>, default: string): (r: string)
    ensures r == default || (r in cands && r != [])
    ensures (forall i | 0 <= i < |cands| :: cands[i] == []) ==> r == default
    ensures forall i | 0 <= i < |cands| ::
      cands[i] != [] && (forall j | 0 <= j < i :: cands[j] == []) ==> r == cands[i]
  {
    if cands == [] then default
    else if cands[0] != [] then cands[0]
    else FirstNonEmpty(cands[1..], default)
  }

  function DigitValue(c: char): nat
    requires IsDigit(c)
  {
    c as int - '0' as int
  }

  function DigitChar(d: nat): (c: char)
    requires d < 10
    ensures IsDigit(c) && DigitValue(c) == d
  {
    ('0' as int + d) as char
  }

  /** The number a string of decimal digits denotes (most significant first). */
  function DigitsValue(ds: string): nat
    requires AllDigits(ds)
  {
    if ds == [] then 0 else DigitsValue(ds[..|ds| - 1]) * 10 + DigitValue(ds[|ds| - 1])
  }

  function Pow10(n: nat): (p: nat)
    ensures p >= 1
  {
    if n == 0 then 1 else 10 * Pow10(n - 1)
  }

  /** The decimal rendering of `n` in a template literal. */
  function NatToString(n: nat): (r: string)
    ensures r != [] && AllDigits(r)
    ensures r[0] == '0' ==> n == 0
  {
    if n < 10 then [DigitChar(n)] else NatToString(n / 10) + [DigitChar(n % 10)]
  }

  /** Reading the rendering back gives the number. */
  lemma {:induction false} NatToStringRoundTrip(n: nat)
    ensures DigitsValue(NatToString(n)) == n
  {
    if n >= 10 {
      NatToStringRoundTrip(n / 10);
      var r := NatToString(n);
      assert r[..|r| - 1] == NatToString(n / 10);
    }
  }
}
