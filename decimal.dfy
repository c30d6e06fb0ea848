/** Python's str() of an int, as used to put the link document's port into the backend URL. */
module Decimal {

  predicate IsDigit(c: char) {
    '0' <= c <= '9'
  }

  predicate AllDigits(s: string) {
    forall i :: 0 <= i < |s| ==> IsDigit(s[i])
  }

  function DigitChar(d: nat): (c: char)
    requires d < 10
    ensures IsDigit(c)
  {
    ('0' as int + d) as char
  }

  function DigitValue(c: char): (d: nat)
    requires IsDigit(c)
    ensures d < 10
    ensures DigitChar(d) == c
  {
    c as int - '0' as int
  }

  /** The canonical decimal numeral of n: digits only, no leading zero. */
  function NatToDecimal(n: nat): (s: string)
    ensures 1 <= |s|
    ensures AllDigits(s)
    ensures s[0] == '0' <==> n == 0
    decreases n
  {
    if n < 10 then [DigitChar(n)] else NatToDecimal(n / 10) + [DigitChar(n % 10)]
  }

  /** The number a string of digits denotes (the reference reading of a numeral). */
  function DecimalValue(s: string): nat
    requires AllDigits(s)
  {
    if s == [] then 0 else 10 * DecimalValue(s[..|s| - 1]) + DigitValue(s[|s| - 1])
  }

  lemma {:induction false} NatRoundTrip(n: nat)
    ensures DecimalValue(NatToDecimal(n)) == n
  {
    var s := NatToDecimal(n);
    if n >= 10 {
      assert s[..|s| - 1] == NatToDecimal(n / 10);
      NatRoundTrip(n / 10);
    }
  }

  /** str(n) for any int: a minus sign before the numeral of |n| when n is negative. */
  function IntToDecimal(n: int): (s: string)
    ensures 1 <= |s|
    ensures s[0] == '-' <==> n < 0
  {
    if n < 0 then "-" + NatToDecimal(-n) else NatToDecimal(n)
  }

  predicate IsIntLiteral(s: string) {
    if |s| > 0 && s[0] == '-' then 2 <= |s| && AllDigits(s[1..]) else 1 <= |s| && AllDigits(s)
  }

  function ParseInt(s: string): int
    requires IsIntLiteral(s)
  {
    if s[0] == '-' then -(DecimalValue(s[1..]) as int) else DecimalValue(s) as int
  }

  lemma IntRoundTrip(n: int)
    ensures IsIntLiteral(IntToDecimal(n))
    ensures ParseInt(IntToDecimal(n)) == n
  {
    var s := IntToDecimal(n);
    if n < 0 {
      assert s[1..] == NatToDecimal(-n);
      NatRoundTrip(-n);
    } else {
      NatRoundTrip(n);
    }
  }

  lemma IntToDecimalInjective(m: int, n: int)
    requires IntToDecimal(m) == IntToDecimal(n)
    ensures m == n
  {
    IntRoundTrip(m);
    IntRoundTrip(n);
  }
}
