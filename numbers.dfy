/**
 * Java's decimal conversions used by the core: `Long.parseLong` (which the
 * similarity filter applies to every token of the model's answer) and the
 * decimal rendering of an integer that string concatenation performs.
 */
module Numbers {
  import opened Text

  /** The range of a Java `long`. */
  const LongMin: int := -0x8000_0000_0000_0000
  const LongMax: int := 0x7FFF_FFFF_FFFF_FFFF

  predicate InLongRange(x: int) { LongMin <= x <= LongMax }

  /** `Math.min`. */
  function Min(a: int, b: int): (r: int)
    ensures r <= a && r <= b && (r == a || r == b)
  {
    if a <= b then a else b
  }

  predicate AllDigits(s: string) { forall i :: 0 <= i < |s| ==> IsDigit(s[i]) }

  function DigitValue(c: char): (d: nat)
    requires IsDigit(c)
    ensures d < 10
  {
    c as int - '0' as int
  }

  function DigitChar(d: nat): (c: char)
    requires d < 10
    ensures IsDigit(c) && DigitValue(c) == d
  {
    ('0' as int + d) as char
  }

  /** The number a string of decimal digits denotes, most significant first. */
  function DigitsValue(s: string): nat
    requires AllDigits(s)
    decreases |s|
  {
    if s == [] then 0 else DigitsValue(s[..|s| - 1]) * 10 + DigitValue(s[|s| - 1])
  }

  /**
   * `Long.parseLong(s)`, with `None` where Java throws NumberFormatException:
   * an optional `+` or `-`, at least one digit, and a value in the `long` range.
   */
  function ParseLong(s: string): (r: Option<int>)
    ensures r.Some? ==> InLongRange(r.value)
    ensures r.Some? ==> |s| > 0 && (IsDigit(s[0]) || s[0] == '-' || s[0] == '+')
  {
    if |s| == 0 then None
    else
      var digits := if s[0] == '-' || s[0] == '+' then s[1..] else s;
      if |digits| == 0 || !AllDigits(digits) then None
      else
        var v: int := if s[0] == '-' then 0 - DigitsValue(digits) as int else DigitsValue(digits);
        if InLongRange(v) then Some(v) else None
  }

  /** The shortest decimal rendering of a natural number. */
  function NatToDecimal(n: nat): (r: string)
    decreases n
    ensures |r| >= 1 && AllDigits(r)
  {
    if n < 10 then [DigitChar(n)] else NatToDecimal(n / 10) + [DigitChar(n % 10)]
  }

  /** What Java's `"" + x` gives for an `int` or a `long`. */
  function IntToDecimal(x: int): (r: string)
    ensures |r| >= 1
    ensures forall i :: 0 <= i < |r| ==> IsDigit(r[i]) || (i == 0 && r[i] == '-')
  {
    if x < 0 then "-" + NatToDecimal(-x) else NatToDecimal(x)
  }

  lemma {:induction false} DigitsValueOfDecimal(n: nat)
    ensures DigitsValue(NatToDecimal(n)) == n
  {
    if n >= 10 {
      var s := NatToDecimal(n);
      assert s[..|s| - 1] == NatToDecimal(n / 10);
      DigitsValueOfDecimal(n / 10);
    }
  }

  /** `Long.parseLong` reads back every `long` from its decimal rendering. */
  lemma ParseLongOfDecimal(x: int)
    requires InLongRange(x)
    ensures ParseLong(IntToDecimal(x)) == Some(x)
  {
    if x < 0 {
      ParseNegative(-x);
    } else {
      ParsePositive(x);
    }
  }

  /** A minus sign and the digits of `n` read back as `-n`. */
  lemma ParseNegative(n: nat)
    requires 0 < n <= -LongMin
    ensures ParseLong("-" + NatToDecimal(n)) == Some(0 - n)
  {
    var s := "-" + NatToDecimal(n);
    assert s[0] == '-';
    assert s[1..] == NatToDecimal(n);
    DigitsValueOfDecimal(n);
  }

  /** The digits of `n` read back as `n`. */
  lemma ParsePositive(n: nat)
    requires n <= LongMax
    ensures ParseLong(NatToDecimal(n)) == Some(n)
  {
    var s := NatToDecimal(n);
    assert IsDigit(s[0]);
    DigitsValueOfDecimal(n);
  }
}
