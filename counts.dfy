/**
 * The scraper's `parseCount`: turns a displayed count such as "1.2万", "3千",
 * "5k" or "1,234" into a number.
 *
 * The source works on IEEE doubles. This model reads the number exactly, as a
 * decimal fraction, and floors it exactly; the one value the source can also
 * produce besides a non-negative integer is NaN.
 */
module Counts {
  import opened Wrappers
  import opened Text

  /** A JavaScript number as `parseCount` can return it. */
  datatype Count = Finite(n: nat) | NotANumber

  /** The characters the regular expression `/[^\d.万千k]/gi` does NOT remove (the `i` flag keeps "K" too). */
  predicate Kept(c: char) {
    IsDigit(c) || c == '.' || c == '万' || c == '千' || c == 'k' || c == 'K'
  }

  /** `text.replace(/[^\d.万千k]/gi, "")`: the kept characters, in order. */
  function Clean(s: string): (r: string)
    ensures |r| <= |s|
  {
    if s == [] then [] else (if Kept(s[0]) then [s[0]] else []) + Clean(s[1..])
  }

  /** A non-negative decimal fraction `num / 10^scale`. */
  datatype Decimal = Decimal(num: nat, scale: nat)

  /** The longest prefix of `s` made of digits. */
  function LeadingDigits(s: string): (r: string)
    ensures |r| <= |s| && r == s[..|r|] && AllDigits(r)
    ensures |r| == |s| || !IsDigit(s[|r|])
  {
    if s != [] && IsDigit(s[0]) then [s[0]] + LeadingDigits(s[1..]) else []
  }

  /**
   * `Number.parseFloat` on a string that holds only digits, dots and the
   * suffix letters (so no sign, no exponent, no "Infinity"): the longest
   * prefix of the form digits [ "." digits ] with at least one digit, or
   * NaN (`None`) when there is none.
   */
  function ParseFloatPrefix(s: string): (r: Option<Decimal>)
    ensures r.Some? <==> (s != [] && IsDigit(s[0])) || (|s| > 1 && s[0] == '.' && IsDigit(s[1]))
  {
    var whole := LeadingDigits(s);
    var rest := s[|whole|..];
    var frac := if rest != [] && rest[0] == '.' then LeadingDigits(rest[1..]) else [];
    if whole == [] && frac == [] then None else Some(DecimalOf(whole, frac))
  }

  /** The value of "whole.frac" as a decimal fraction. */
  function DecimalOf(whole: string, frac: string): Decimal
    requires AllDigits(whole) && AllDigits(frac)
  {
    ProductIsNat(DigitsValue(whole), Pow10(|frac|));
    var scaled: nat := DigitsValue(whole) * Pow10(|frac|);
    Decimal(scaled + DigitsValue(frac), |frac|)
  }

  /** `Math.floor(d * factor)`, computed exactly. */
  function FloorTimes(d: Decimal, factor: nat): nat {
    ProductIsNat(d.num, factor);
    var scaled: nat := d.num * factor;
    var unit := Pow10(d.scale);
    QuotientIsNat(scaled, unit);
    scaled / unit
  }

  lemma ProductIsNat(a: nat, b: nat)
    ensures a * b >= 0
  {
  }

  lemma QuotientIsNat(a: nat, b: nat)
    requires b >= 1
    ensures a / b >= 0
  {
  }

  /** `parseCount(text)` of the scraper. */
  function ParseCount(text: string): (c: Count)
    ensures text == [] ==> c == Finite(0)
    ensures c == NotANumber <==>
      && ('万' in text || '千' in text || 'k' in text)
      && ParseFloatPrefix(Clean(text)).None?
  {
    if text == [] then Finite(0)
    else
      var num := ParseFloatPrefix(Clean(text));
      if '万' in text then
        (if num.Some? then Finite(FloorTimes(num.value, 10000)) else NotANumber)
      else if '千' in text || 'k' in text then
        (if num.Some? then Finite(FloorTimes(num.value, 1000)) else NotANumber)
      else
        Finite(if num.Some? then FloorTimes(num.value, 1) else 0)
  }

  /** The factor the suffixes select: 万 first, then 千 or lower-case k; "K" scales nothing. */
  function Multiplier(text: string): nat {
    if '万' in text then 10000 else if '千' in text || 'k' in text then 1000 else 1
  }

  lemma {:induction false} CleanAppend(a: string, b: string)
    ensures Clean(a + b) == Clean(a) + Clean(b)
    decreases |a|
  {
    if a != [] {
      CleanAppend(a[1..], b);
      var head := if Kept(a[0]) then [a[0]] else [];
      assert (a + b)[0] == a[0];
      assert (a + b)[1..] == a[1..] + b;
      calc {
        Clean(a + b);
        head + Clean(a[1..] + b);
        head + (Clean(a[1..]) + Clean(b));
        (head + Clean(a[1..])) + Clean(b);
      }
    } else {
      assert a + b == b;
    }
  }

  lemma {:induction false} CleanIdempotent(s: string)
    ensures Clean(Clean(s)) == Clean(s)
    decreases |s|
  {
    if s != [] {
      CleanIdempotent(s[1..]);
      CleanAppend(if Kept(s[0]) then [s[0]] else [], Clean(s[1..]));
    }
  }

  lemma {:induction false} LeadingDigitsOfDigits(ds: string, u: string)
    requires AllDigits(ds)
    requires u == [] || !IsDigit(u[0])
    ensures LeadingDigits(ds + u) == ds
    decreases |ds|
  {
    if ds != [] {
      LeadingDigitsOfDigits(ds[1..], u);
      assert (ds + u)[1..] == ds[1..] + u;
    }
  }

  /** The filter keeps exactly the kept characters. */
  lemma {:induction false} CleanMembers(s: string, c: char)
    ensures c in Clean(s) <==> c in s && Kept(c)
    decreases |s|
  {
    if s != [] {
      CleanMembers(s[1..], c);
      assert s == [s[0]] + s[1..];
    }
  }

  lemma NoDigitNoLeading(s: string)
    requires forall c | c in s :: !IsDigit(c)
    ensures LeadingDigits(s) == []
  {
  }

  /** The count depends only on the filtered text, on emptiness and on which suffixes occur. */
  lemma SameCount(t: string, u: string)
    requires Clean(t) == Clean(u) && (t == [] <==> u == [])
    requires ('万' in t <==> '万' in u) && ('千' in t <==> '千' in u) && ('k' in t <==> 'k' in u)
    ensures ParseCount(t) == ParseCount(u)
  {
  }

  /**
   * A character the filter strips changes nothing, wherever it stands: a
   * minus sign, a comma or a space never affects the count.
   */
  lemma StrippedCharIgnored(a: string, c: char, b: string)
    requires !Kept(c)
    ensures ParseCount(a + [c] + b) == ParseCount(a + b)
  {
    var t := a + [c] + b;
    var u := a + b;
    CleanAppend(a + [c], b);
    CleanAppend(a, [c]);
    CleanAppend(a, b);
    assert Clean([c]) == [];
    assert Clean(t) == Clean(u);
    if u == [] {
      assert Clean(t) == [];
      assert ParseFloatPrefix([]) == None;
      assert t == [c];
    } else {
      forall x | x != c ensures x in t <==> x in u {
        assert x in t <==> x in a || x in b;
        assert x in u <==> x in a || x in b;
      }
      SameCount(t, u);
    }
  }

  /**
   * Text without a digit counts as 0 unless it carries a suffix; with 万,
   * 千 or k it is NaN, because that branch floors an unparsed number.
   */
  lemma DigitFreeText(text: string)
    requires forall c | c in text :: !IsDigit(c)
    ensures ParseCount(text) == if '万' in text || '千' in text || 'k' in text then NotANumber else Finite(0)
  {
    if text != [] {
      var s := Clean(text);
      forall c | c in s ensures !IsDigit(c) {
        CleanMembers(text, c);
      }
      NoDigitNoLeading(s);
      var rest := s[|LeadingDigits(s)|..];
      if rest != [] && rest[0] == '.' {
        NoDigitNoLeading(rest[1..]);
      }
    }
  }

  /** Suffix text that contributes no digit and no dot to the number. */
  predicate SuffixOnly(u: string) {
    forall c | c in u :: !IsDigit(c) && c != '.'
  }

  lemma CleanSuffixOnly(u: string)
    requires SuffixOnly(u)
    ensures SuffixOnly(Clean(u))
  {
    forall c | c in Clean(u) ensures !IsDigit(c) && c != '.' {
      CleanMembers(u, c);
    }
  }

  predicate AllKept(s: string) {
    forall i | 0 <= i < |s| :: Kept(s[i])
  }

  lemma {:induction false} CleanAllKept(s: string)
    requires AllKept(s)
    ensures Clean(s) == s
    decreases |s|
  {
    if s != [] {
      CleanAllKept(s[1..]);
    }
  }

  lemma CleanFraction(ds: string, fs: string, u: string)
    requires AllDigits(ds) && AllDigits(fs)
    ensures Clean(ds + "." + fs + u) == ds + ("." + (fs + Clean(u)))
  {
    CleanDigitsDotDigits(ds, fs);
    CleanAppend(ds + "." + fs, u);
    ConcatShape(ds, fs, Clean(u));
  }

  lemma CleanDigitsDotDigits(ds: string, fs: string)
    requires AllDigits(ds) && AllDigits(fs)
    ensures Clean(ds + "." + fs) == ds + "." + fs
  {
    var a := ds + "." + fs;
    assert AllKept(a);
    CleanAllKept(a);
  }

  lemma ConcatShape(ds: string, fs: string, v: string)
    ensures ds + "." + fs + v == ds + ("." + (fs + v))
  {
  }

  lemma ParseWhole(ds: string, rest: string)
    requires ds != [] && AllDigits(ds) && SuffixOnly(rest)
    ensures ParseFloatPrefix(ds + rest) == Some(DecimalOf(ds, []))
  {
    assert rest == [] || rest[0] in rest;
    LeadingDigitsOfDigits(ds, rest);
    assert (ds + rest)[|ds|..] == rest;
  }

  lemma ParseFraction(ds: string, fs: string, rest: string)
    requires AllDigits(ds) && AllDigits(fs) && ds + fs != [] && SuffixOnly(rest)
    ensures ParseFloatPrefix(ds + ("." + (fs + rest))) == Some(DecimalOf(ds, fs))
  {
    assert rest == [] || rest[0] in rest;
    LeadingDigitsOfDigits(ds, "." + (fs + rest));
    LeadingDigitsOfDigits(fs, rest);
    assert (ds + ("." + (fs + rest)))[|ds|..] == "." + (fs + rest);
    assert ("." + (fs + rest))[1..] == fs + rest;
  }

  lemma MultiplierOfDigitsPrefix(head: string, u: string)
    requires forall c | c in head :: IsDigit(c) || c == '.'
    ensures Multiplier(head + u) == Multiplier(u)
  {
    assert '万' !in head && '千' !in head && 'k' !in head;
    assert ('万' in head + u <==> '万' in u) && ('千' in head + u <==> '千' in u) && ('k' in head + u <==> 'k' in u);
  }

  /**
   * A whole number followed by suffix text without digits or dots is
   * scaled by the suffix's multiplier: 万 wins over 千/k, and "K" alone
   * leaves the number as it is.
   */
  lemma WholeWithSuffix(ds: string, u: string)
    requires ds != [] && AllDigits(ds) && SuffixOnly(u)
    ensures ParseCount(ds + u) == Finite(DigitsValue(ds) * Multiplier(u))
  {
    var text := ds + u;
    assert Clean(text) == ds + Clean(u) by {
      CleanAppend(ds, u);
      assert AllKept(ds);
      CleanAllKept(ds);
    }
    CleanSuffixOnly(u);
    ParseWhole(ds, Clean(u));
    WholeDecimal(ds);
    WholeCount(text, DigitsValue(ds));
    MultiplierOfDigitsPrefix(ds, u);
  }

  lemma WholeDecimal(ds: string)
    requires AllDigits(ds)
    ensures DecimalOf(ds, []) == Decimal(DigitsValue(ds), 0)
  {
  }

  lemma WholeCount(text: string, v: nat)
    requires text != [] && ParseFloatPrefix(Clean(text)) == Some(Decimal(v, 0))
    ensures ParseCount(text) == Finite(v * Multiplier(text))
  {
    var m := Multiplier(text);
    assert FloorTimes(Decimal(v, 0), m) == v * m;
  }

  lemma DecimalCount(text: string, d: Decimal)
    requires text != [] && ParseFloatPrefix(Clean(text)) == Some(d)
    ensures ParseCount(text) == Finite(FloorTimes(d, Multiplier(text)))
  {
  }

  /**
   * A decimal "whole.frac" followed by suffix text without digits or dots
   * is scaled by the suffix's multiplier and then floored.
   */
  lemma FractionWithSuffix(ds: string, fs: string, u: string)
    requires AllDigits(ds) && AllDigits(fs) && ds + fs != [] && SuffixOnly(u)
    ensures ParseCount(ds + "." + fs + u) == Finite(FloorTimes(DecimalOf(ds, fs), Multiplier(u)))
  {
    var text := ds + "." + fs + u;
    FractionParsed(ds, fs, u);
    DecimalCount(text, DecimalOf(ds, fs));
    MultiplierOfDigitsPrefix(ds + "." + fs, u);
  }

  lemma FractionParsed(ds: string, fs: string, u: string)
    requires AllDigits(ds) && AllDigits(fs) && ds + fs != [] && SuffixOnly(u)
    ensures ds + "." + fs + u != []
    ensures ParseFloatPrefix(Clean(ds + "." + fs + u)) == Some(DecimalOf(ds, fs))
  {
    CleanFraction(ds, fs, u);
    CleanSuffixOnly(u);
    ParseFraction(ds, fs, Clean(u));
  }

}
