/**
 * Screen resolutions as the menu scripts see them: a pair of integer
 * pixel counts (the engine's `Vector2Int`, or the `Screen.width` /
 * `Screen.height` pair), and the decimal text an `int` is printed as.
 */
module Display {
  datatype Resolution = Resolution(width: int, height: int)

  /** Decimal rendering of an integer, as C# string interpolation prints an `int`. */
  function DecimalString(n: int): (s: string)
    ensures |s| > 0
    ensures n >= 0 ==> s[0] != '-'
    ensures n < 0 ==> s[0] == '-'
    decreases if n < 0 then 1 - n else n
  {
    if n < 0 then "-" + DecimalString(-n)
    else if n < 10 then [Digit(n)]
    else DecimalString(n / 10) + [Digit(n % 10)]
  }

  function Digit(d: int): (c: char)
    requires 0 <= d < 10
    ensures IsDigit(c) && DigitValue(c) == d
  {
    ('0' as int + d) as char
  }

  predicate IsDigit(c: char) { '0' <= c <= '9' }

  function DigitValue(c: char): int { c as int - '0' as int }

  /** The number a string of decimal digits denotes, most significant digit first. */
  function DigitsValue(s: string): int
    decreases |s|
  {
    if s == [] then 0 else 10 * DigitsValue(s[..|s| - 1]) + DigitValue(s[|s| - 1])
  }

  /** Reads back a decimal text with an optional leading minus sign. */
  function ParseDecimal(s: string): int
  {
    if |s| > 0 && s[0] == '-' then -DigitsValue(s[1..]) else DigitsValue(s)
  }

  /**
   * A natural number is rendered as digits only, with no leading zero
   * unless it is 0 itself, and the digits denote the number.
   */
  lemma {:induction false} NaturalDigits(n: int)
    requires n >= 0
    decreases n
    ensures forall i :: 0 <= i < |DecimalString(n)| ==> IsDigit(DecimalString(n)[i])
    ensures DecimalString(n)[0] == '0' ==> n == 0
    ensures DigitsValue(DecimalString(n)) == n
  {
    var s := DecimalString(n);
    if n < 10 {
      assert s[..|s| - 1] == [];
    } else {
      var p := DecimalString(n / 10);
      NaturalDigits(n / 10);
      assert s == p + [Digit(n % 10)];
      assert s[..|s| - 1] == p;
      assert s[0] == p[0];
    }
  }

  /**
   * Reading the text back gives the number: a negative number is a minus
   * sign followed by the rendering of its magnitude.
   */
  lemma DecimalRoundTrip(n: int)
    ensures n < 0 ==> DecimalString(n)[1..] == DecimalString(-n)
    ensures ParseDecimal(DecimalString(n)) == n
  {
    if n < 0 {
      NaturalDigits(-n);
      assert DecimalString(n)[1..] == DecimalString(-n);
    } else {
      NaturalDigits(n);
    }
  }

  /** Different numbers are printed differently. */
  lemma DecimalStringInjective(a: int, b: int)
    requires DecimalString(a) == DecimalString(b)
    ensures a == b
  {
    DecimalRoundTrip(a);
    DecimalRoundTrip(b);
  }
}
