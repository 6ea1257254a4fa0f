/**
 * Decimal rendering of a Java `int`, as string concatenation (`"..." + timeout`)
 * produces it, together with the parser that undoes it.
 */
module Decimal {

  predicate IsDigit(c: char) {
    '0' <= c <= '9'
  }

  predicate AllDigits(s: string) {
    forall i :: 0 <= i < |s| ==> IsDigit(s[i])
  }

  function DigitChar(d: nat): (c: char)
    requires d < 10
    ensures IsDigit(c)
  {
    "0123456789"[d]
  }

  function DigitValue(c: char): (d: nat)
    requires IsDigit(c)
    ensures d < 10
  {
    c as int - '0' as int
  }

  /** The decimal digits of `n`, most significant first, with no leading zero. */
  function NatToString(n: nat): (s: string)
    ensures 1 <= |s| && AllDigits(s)
    ensures |s| > 1 ==> s[0] != '0'
  {
    if n < 10 then [DigitChar(n)] else NatToString(n / 10) + [DigitChar(n % 10)]
  }

  /** Java's `Integer.toString`: a minus sign for negative values, then the digits of the magnitude. */
  function IntToString(x: int): (s: string)
    ensures 1 <= |s|
    ensures x < 0 <==> s[0] == '-'
    ensures forall i :: 0 <= i < |s| ==> s[i] != ' '
  {
    if x < 0 then "-" + NatToString(-x) else NatToString(x)
  }

  function ParseNat(s: string): nat
    requires AllDigits(s)
  {
    if s == [] then 0 else 10 * ParseNat(s[..|s| - 1]) + DigitValue(s[|s| - 1])
  }

  function ParseInt(s: string): int
    requires 1 <= |s|
    requires AllDigits(if s[0] == '-' then s[1..] else s)
  {
    if s[0] == '-' then -(ParseNat(s[1..]) as int) else ParseNat(s)
  }

  lemma {:induction false} ParseNatToString(n: nat)
    ensures ParseNat(NatToString(n)) == n
  {
    var s := NatToString(n);
    if n >= 10 {
      ParseNatToString(n / 10);
      assert s[..|s| - 1] == NatToString(n / 10);
    }
  }

  /** The rendering loses nothing: the number can be read back from its text. */
  lemma IntToStringRoundTrip(x: int)
    ensures ParseInt(IntToString(x)) == x
  {
    if x < 0 {
      ParseNatToString(-x);
      assert IntToString(x)[1..] == NatToString(-x);
    } else {
      ParseNatToString(x);
    }
  }

  /** Distinct numbers never render to the same text. */
  lemma IntToStringInjective(x: int, y: int)
    requires IntToString(x) == IntToString(y)
    ensures x == y
  {
    IntToStringRoundTrip(x);
    IntToStringRoundTrip(y);
  }
}
