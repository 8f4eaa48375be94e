/** The two pieces of Java `int` behaviour the controller relies on: the
    wrap-around of `+` on 32-bit values, and the decimal text that string
    concatenation (`"..." + power`) produces for an `int`. */
module JavaInt {
  import opened Wrappers

  const MinInt: int := -0x8000_0000
  const MaxInt: int := 0x7fff_ffff
  const Modulus: int := 0x1_0000_0000

  /** The values a Java `int` can hold. */
  type Int32 = x: int | MinInt <= x <= MaxInt

  /** Java's `a + b` on two `int`s: the mathematical sum reduced into the
      32-bit range, i.e. two's-complement wrap-around. */
  function Add32(a: Int32, b: Int32): (r: Int32)
    ensures (a + b - r) % Modulus == 0
    ensures MinInt <= a + b <= MaxInt ==> r == a + b
    ensures a + b > MaxInt ==> r < 0
  {
    var x := (a + b) % Modulus;
    if x > MaxInt then x - Modulus else x
  }

  predicate IsDigit(c: char) {
    '0' <= c <= '9'
  }

  predicate AllDigits(s: string) {
    forall i :: 0 <= i < |s| ==> IsDigit(s[i])
  }

  function DigitChar(d: int): (c: char)
    requires 0 <= d < 10
    ensures IsDigit(c) && c as int - '0' as int == d
  {
    ('0' as int + d) as char
  }

  /** The decimal digits of a natural number, most significant first, with
      no leading zero. */
  function NatToDecimal(n: nat): (s: string)
    ensures |s| >= 1 && AllDigits(s)
    ensures s[0] == '0' ==> s == "0"
    decreases n
  {
    if n < 10 then [DigitChar(n)] else NatToDecimal(n / 10) + [DigitChar(n % 10)]
  }

  /** `Integer.toString(x)`: what `"..." + x` appends for an `int` x. */
  function ToDecimal(x: int): (s: string)
    ensures |s| >= 1
    ensures x < 0 <==> s[0] == '-'
    ensures var digits := if x < 0 then s[1..] else s;
            |digits| >= 1 && AllDigits(digits) && (digits[0] == '0' ==> digits == "0")
  {
    if x < 0 then "-" + NatToDecimal(-x) else NatToDecimal(x)
  }

  /** The number a string of decimal digits denotes. */
  function DigitsValue(s: string): nat
    requires AllDigits(s)
  {
    if s == [] then 0
    else 10 * DigitsValue(s[..|s| - 1]) + (s[|s| - 1] as int - '0' as int)
  }

  /** Reads a decimal integer with an optional leading minus sign, the
      inverse of ToDecimal. */
  function ParseDecimal(s: string): Option<int> {
    if |s| >= 1 && AllDigits(s) then Some(DigitsValue(s) as int)
    else if |s| >= 2 && s[0] == '-' && AllDigits(s[1..]) then Some(0 - DigitsValue(s[1..]))
    else None
  }

  lemma {:induction false} NatToDecimalValue(n: nat)
    ensures DigitsValue(NatToDecimal(n)) == n
    decreases n
  {
    var s := NatToDecimal(n);
    if n >= 10 {
      NatToDecimalValue(n / 10);
      assert s[..|s| - 1] == NatToDecimal(n / 10);
    }
  }

  /** Printing an `int` and reading it back gives the same `int`, so the
      decimal text determines the number. */
  lemma DecimalRoundTrip(x: int)
    ensures ParseDecimal(ToDecimal(x)) == Some(x)
  {
    var s := ToDecimal(x);
    if x < 0 {
      NatToDecimalValue(-x);
      assert s[1..] == NatToDecimal(-x);
      assert !IsDigit(s[0]);
    } else {
      NatToDecimalValue(x);
    }
  }

  lemma DecimalInjective(x: int, y: int)
    requires ToDecimal(x) == ToDecimal(y)
    ensures x == y
  {
    DecimalRoundTrip(x);
    DecimalRoundTrip(y);
  }
}
