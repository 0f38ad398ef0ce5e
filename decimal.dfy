/**
 * Swift's decimal rendering of an `Int` (`"\(n)"`): an optional minus sign and the digits
 * without leading zeros. Parsing the rendering back is its inverse.
 */
module Decimal {
  import opened Wrappers

  predicate IsDigit(c: char) {
    '0' <= c <= '9'
  }

  function DigitChar(d: nat): (c: char)
    requires d < 10
    ensures IsDigit(c) && (c as int) - ('0' as int) == d
  {
    (('0' as int) + d) as char
  }

  function DigitValue(c: char): (d: nat)
    requires IsDigit(c)
    ensures d < 10 && DigitChar(d) == c
  {
    (c as int) - ('0' as int)
  }

  predicate AllDigits(s: string) {
    forall i :: 0 <= i < |s| ==> IsDigit(s[i])
  }

  /** The digits of `n`, most significant first, with no leading zero. */
  function NatToDecimal(n: nat): (s: string)
    ensures |s| >= 1 && AllDigits(s)
    ensures s[0] == '0' ==> n == 0
    decreases n
  {
    if n < 10 then [DigitChar(n)] else NatToDecimal(n / 10) + [DigitChar(n % 10)]
  }

  /** `"\(n)"` for an `Int`. */
  function IntToDecimal(n: int): (s: string)
    ensures |s| >= 1
    ensures n < 0 <==> s[0] == '-'
    ensures n >= 0 ==> AllDigits(s)
  {
    if n < 0 then "-" + NatToDecimal(-n) else NatToDecimal(n)
  }

  /** The number a string of digits denotes. */
  function DigitsValue(s: string): nat
    requires AllDigits(s)
  {
    if |s| == 0 then 0 else DigitsValue(s[..|s| - 1]) * 10 + DigitValue(s[|s| - 1])
  }

  /** `Int(s)`: an optional minus sign followed by at least one digit. */
  function ParseInt(s: string): Option<int> {
    if |s| > 0 && s[0] == '-' then
      if |s| > 1 && AllDigits(s[1..]) then Some(-(DigitsValue(s[1..]) as int)) else None
    else if |s| > 0 && AllDigits(s) then Some(DigitsValue(s))
    else None
  }

  lemma {:induction false} NatToDecimalValue(n: nat)
    ensures DigitsValue(NatToDecimal(n)) == n
    decreases n
  {
    if n >= 10 {
      var s := NatToDecimal(n);
      assert s[..|s| - 1] == NatToDecimal(n / 10);
      NatToDecimalValue(n / 10);
    }
  }

  /** `Int(s)` on one or more digits is their value. */
  lemma ParseDigits(s: string)
    requires |s| >= 1 && AllDigits(s)
    ensures ParseInt(s) == Some(DigitsValue(s))
  {
    assert IsDigit(s[0]);
  }

  /** `Int(s)` on a minus sign and one or more digits is minus their value. */
  lemma ParseNegative(s: string)
    requires |s| >= 1 && AllDigits(s)
    ensures ParseInt("-" + s) == Some(-(DigitsValue(s) as int))
  {
    assert ("-" + s)[1..] == s;
  }

  /** Round trip: parsing the rendering of any integer gives it back. */
  lemma DecimalRoundTrip(n: int)
    ensures ParseInt(IntToDecimal(n)) == Some(n)
  {
    if n < 0 {
      ParseNegative(NatToDecimal(-n));
      NatToDecimalValue(-n);
    } else {
      ParseDigits(NatToDecimal(n));
      NatToDecimalValue(n);
    }
  }

  /** Distinct integers render differently. */
  lemma DecimalInjective(m: int, n: int)
    requires IntToDecimal(m) == IntToDecimal(n)
    ensures m == n
  {
    DecimalRoundTrip(m);
    DecimalRoundTrip(n);
  }

  lemma DecimalExamples()
    ensures IntToDecimal(0) == "0" && IntToDecimal(7) == "7"
    ensures IntToDecimal(100) == "100" && IntToDecimal(-42) == "-42"
  {
  }
}
