// Base-10 conversions the components rely on: `parseInt(s, 10)` on strings
// of decimal digits, and the decimal rendering of an index inside a
// template string (`player-${index}`).

module Decimal {

  predicate IsDigit(c: char) {
    '0' <= c <= '9'
  }

  predicate IsDigitString(s: string) {
    forall i :: 0 <= i < |s| ==> IsDigit(s[i])
  }

  function DigitValue(c: char): (d: nat)
    requires IsDigit(c)
    ensures d < 10
  {
    c as int - '0' as int
  }

  function DigitChar(d: nat): (c: char)
    requires d < 10
    ensures IsDigit(c) && DigitValue(c) == d
  {
    ('0' as int + d) as char
  }

  function Pow10(k: nat): (p: nat)
    ensures p >= 1
  {
    if k == 0 then 1 else 10 * Pow10(k - 1)
  }

  /**
   * `parseInt(s, 10)` for a non-empty string of decimal digits: the value of
   * the digits read most significant first. Leading zeros are allowed.
   */
  function ParseInt(s: string): (n: nat)
    requires |s| > 0 && IsDigitString(s)
    ensures n < Pow10(|s|)
    ensures n >= DigitValue(s[0]) * Pow10(|s| - 1)
  {
    if |s| == 1 then DigitValue(s[0])
    else
      var prefix := s[..|s| - 1];
      var p := ParseInt(prefix);
      ghost var lead := DigitValue(s[0]);
      assert prefix[0] == s[0];
      assert p >= lead * Pow10(|s| - 2);
      assert lead * Pow10(|s| - 1) == 10 * (lead * Pow10(|s| - 2));
      p * 10 + DigitValue(s[|s| - 1])
  }

  /** Dropping the last digit divides the parsed value by ten (rounding down). */
  lemma {:induction false} ParseIntDropLast(s: string)
    requires |s| >= 2 && IsDigitString(s)
    ensures ParseInt(s[..|s| - 1]) == ParseInt(s) / 10
    ensures ParseInt(s[..|s| - 1]) <= ParseInt(s)
  {
    var p := ParseInt(s[..|s| - 1]);
    var d := DigitValue(s[|s| - 1]);
    assert ParseInt(s) == p * 10 + d;
  }

  /** The shortest decimal rendering of `n`, as JavaScript writes a non-negative integer into a string. */
  function NatToString(n: nat): (s: string)
    ensures |s| > 0 && IsDigitString(s)
    ensures |s| == 1 || s[0] != '0'
    ensures ParseInt(s) == n
    decreases n
  {
    if n < 10 then [DigitChar(n)]
    else
      var prefix := NatToString(n / 10);
      var s := prefix + [DigitChar(n % 10)];
      assert s[..|s| - 1] == prefix;
      s
  }
}
