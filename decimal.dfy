/**
 * Decimal rendering of integers as `snprintf` does it for the `%d`,
 * `%ld` and `%lu` conversions, and a reader of such text, used to state
 * which values a statement carries.
 */
module Decimal {

  predicate IsDigit(c: char)
  {
    '0' <= c <= '9'
  }

  predicate AllDigits(s: string)
  {
    forall i :: 0 <= i < |s| ==> IsDigit(s[i])
  }

  function DigitChar(d: nat): (c: char)
    requires d < 10
    ensures IsDigit(c)
  {
    ('0' as int + d) as char
  }

  function DigitValue(c: char): (d: nat)
    requires IsDigit(c)
    ensures d < 10
    ensures DigitChar(d) == c
  {
    c as int - '0' as int
  }

  /** The digits of `n`, most significant first, without leading zeros. */
  function NatToDec(n: nat): (s: string)
    ensures |s| >= 1 && AllDigits(s)
    ensures s[0] == '0' ==> n == 0
  {
    if n < 10 then [DigitChar(n)] else NatToDec(n / 10) + [DigitChar(n % 10)]
  }

  /** `%d` of a signed value: a minus sign for negative values, then the digits. */
  function IntToDec(i: int): (s: string)
    ensures |s| >= 1
    ensures s[0] == '-' <==> i < 0
    ensures AllDigits(s[1..])
  {
    if i < 0 then "-" + NatToDec(-i) else NatToDec(i)
  }

  /** The value of a string of decimal digits. */
  function DecValue(s: string): nat
    requires AllDigits(s)
  {
    if s == [] then 0 else 10 * DecValue(s[..|s| - 1]) + DigitValue(s[|s| - 1])
  }

  /** Text that `IntToDec` can produce: an optional minus sign, then at least one digit. */
  predicate IsIntText(s: string)
  {
    if |s| > 0 && s[0] == '-' then |s| > 1 && AllDigits(s[1..]) else |s| > 0 && AllDigits(s)
  }

  function ParseInt(s: string): int
    requires IsIntText(s)
  {
    if s[0] == '-' then 0 - DecValue(s[1..]) as int else DecValue(s) as int
  }

  lemma {:induction false} NatToDecRoundTrip(n: nat)
    ensures DecValue(NatToDec(n)) == n
  {
    var s := NatToDec(n);
    if n >= 10 {
      NatToDecRoundTrip(n / 10);
      assert s[..|s| - 1] == NatToDec(n / 10);
      assert DigitValue(s[|s| - 1]) == n % 10;
    } else {
      assert s[..0] == [];
    }
  }

  lemma IntToDecRoundTrip(i: int)
    ensures IsIntText(IntToDec(i))
    ensures ParseInt(IntToDec(i)) == i
  {
    if i < 0 {
      assert IntToDec(i)[1..] == NatToDec(-i);
      NatToDecRoundTrip(-i);
    } else {
      NatToDecRoundTrip(i);
    }
  }
}
