/** String helpers used by the engine: case folding, suffix tests and decimal numerals. */
module Text {

  /** ASCII lower-casing of one character. */
  function LowerChar(c: char): char
  {
    if 'A' <= c <= 'Z' then (c as int + 32) as char else c
  }

  /**
   * Lower-casing of a whole string, character by character (the part of
   * Python's `str.lower` that can matter for an ASCII suffix test).
   */
  function Lower(s: string): (r: string)
    ensures |r| == |s|
    ensures forall i :: 0 <= i < |s| ==> r[i] == LowerChar(s[i])
  {
    seq(|s|, i requires 0 <= i < |s| => LowerChar(s[i]))
  }

  /** Python's `s.endswith(suffix)`. */
  predicate EndsWith(s: string, suffix: string)
  {
    |suffix| <= |s| && s[|s| - |suffix|..] == suffix
  }

  /**
   * Reference definition, read from the back: the last characters of `s`,
   * each lower-cased, spell `suffix`.
   */
  predicate EndsWithIgnoringCase(s: string, suffix: string)
    decreases |suffix|
  {
    if suffix == [] then true
    else
      |s| > 0 && LowerChar(s[|s| - 1]) == suffix[|suffix| - 1] &&
      EndsWithIgnoringCase(s[..|s| - 1], suffix[..|suffix| - 1])
  }

  /** Testing the suffix of the lower-cased string is a case-insensitive suffix test. */
  lemma {:induction false} LowerEndsWith(s: string, suffix: string)
    ensures EndsWith(Lower(s), suffix) <==> EndsWithIgnoringCase(s, suffix)
    decreases |suffix|
  {
    if suffix != [] && |s| > 0 {
      var s', suffix' := s[..|s| - 1], suffix[..|suffix| - 1];
      LowerEndsWith(s', suffix');
      var l, l' := Lower(s), Lower(s');
      assert l == l' + [LowerChar(s[|s| - 1])];
      assert suffix == suffix' + [suffix[|suffix| - 1]];
      if |suffix| <= |s| {
        assert l[|s| - |suffix|..] == l'[|s'| - |suffix'|..] + [LowerChar(s[|s| - 1])];
      }
    }
  }

  predicate IsDigit(c: char)
  {
    '0' <= c <= '9'
  }

  predicate AllDigits(s: string)
  {
    forall i :: 0 <= i < |s| ==> IsDigit(s[i])
  }

  function Digit(d: nat): char
    requires d < 10
  {
    (48 + d) as char
  }

  /** Python's `str(n)` for a non-negative integer, as an f-string renders it. */
  function NatToString(n: nat): (s: string)
    ensures |s| >= 1 && AllDigits(s)
    ensures s[0] == '0' ==> n == 0 && |s| == 1
    decreases n
  {
    if n < 10 then [Digit(n)] else NatToString(n / 10) + [Digit(n % 10)]
  }

  /** The number a string of decimal digits denotes. */
  function DecimalValue(s: string): nat
    requires AllDigits(s)
    decreases |s|
  {
    if s == [] then 0
    else 10 * DecimalValue(s[..|s| - 1]) + (s[|s| - 1] as int - '0' as int)
  }

  /** Reading the numeral back gives the number: the rendering loses nothing. */
  lemma {:induction false} DecimalRoundTrip(n: nat)
    ensures DecimalValue(NatToString(n)) == n
  {
    if n >= 10 {
      DecimalRoundTrip(n / 10);
      var s := NatToString(n / 10);
      assert (s + [Digit(n % 10)])[..|s|] == s;
    }
  }

  /** The number of decimal digits at the front of `s`. */
  function LeadingDigits(s: string): (k: nat)
    ensures k <= |s|
  {
    if s != [] && IsDigit(s[0]) then 1 + LeadingDigits(s[1..]) else 0
  }

  lemma {:induction false} LeadingDigitsOfNumeral(a: string, x: string)
    requires AllDigits(a)
    requires x == [] || !IsDigit(x[0])
    ensures LeadingDigits(a + x) == |a|
  {
    if a == [] {
      assert a + x == x;
    } else {
      assert (a + x)[1..] == a[1..] + x;
      LeadingDigitsOfNumeral(a[1..], x);
    }
  }

  /**
   * A numeral followed by text that does not start with a digit can be split
   * in one way only: the number and the rest are both determined.
   */
  lemma NumeralPrefixUnique(m: nat, x: string, n: nat, y: string)
    requires x == [] || !IsDigit(x[0])
    requires y == [] || !IsDigit(y[0])
    requires NatToString(m) + x == NatToString(n) + y
    ensures m == n && x == y
  {
    var a, b := NatToString(m), NatToString(n);
    LeadingDigitsOfNumeral(a, x);
    LeadingDigitsOfNumeral(b, y);
    assert a == (a + x)[..|a|];
    assert b == (b + y)[..|b|];
    assert x == (a + x)[|a|..];
    assert y == (b + y)[|b|..];
    DecimalRoundTrip(m);
    DecimalRoundTrip(n);
  }
}
