/**
 * Decimal rendering of integers, together with a reader for the leading
 * digits of a string that inverts it. For an integral JavaScript number of
 * magnitude below 10^21 this is what a template literal (`${n}`) prints;
 * from 10^21 on JavaScript switches to exponent form (`1e+21`), which is
 * not modelled.
 */
module Decimal {

  predicate IsDigit(c: char) {
    '0' <= c <= '9'
  }

  predicate AllDigits(s: string) {
    forall i | 0 <= i < |s| :: IsDigit(s[i])
  }

  function DigitChar(d: nat): (c: char)
    requires d < 10
    ensures IsDigit(c)
  {
    (d + '0' as int) as char
  }

  function DigitValue(c: char): nat
    requires IsDigit(c)
  {
    c as int - '0' as int
  }

  /** Base-ten digits of `n`, most significant first, without leading zeros. */
  function NatToString(n: nat): (s: string)
    ensures |s| > 0 && AllDigits(s)
    decreases n
  {
    if n < 10 then [DigitChar(n)] else NatToString(n / 10) + [DigitChar(n % 10)]
  }

  /** `${i}` for an integral number below 10^21 in magnitude: a minus sign, then the digits of its magnitude. */
  function IntToString(i: int): string {
    if i < 0 then "-" + NatToString(-i) else NatToString(i)
  }

  /** The number a string of digits denotes. */
  function DigitsValue(s: string): nat
    requires AllDigits(s)
    decreases |s|
  {
    if |s| == 0 then 0 else 10 * DigitsValue(s[..|s| - 1]) + DigitValue(s[|s| - 1])
  }

  /** Length of the longest prefix of `s` made of digits. */
  function LeadingDigitCount(s: string): (n: nat)
    ensures n <= |s|
    ensures forall i | 0 <= i < n :: IsDigit(s[i])
    ensures n < |s| ==> !IsDigit(s[n])
  {
    if |s| > 0 && IsDigit(s[0]) then 1 + LeadingDigitCount(s[1..]) else 0
  }

  /** The number written by the leading digits of `s` (0 when there are none). */
  function ParseLeadingNat(s: string): nat {
    var n := LeadingDigitCount(s);
    DigitsValue(s[..n])
  }

  /** Reads back what `IntToString` writes: an optional minus sign and digits. */
  function ParseInt(s: string): int {
    if |s| > 0 && s[0] == '-' then 0 - ParseLeadingNat(s[1..]) as int else ParseLeadingNat(s)
  }

  lemma {:induction false} DigitsValueOfNatToString(n: nat)
    ensures DigitsValue(NatToString(n)) == n
    decreases n
  {
    if n >= 10 {
      var s := NatToString(n);
      assert s[..|s| - 1] == NatToString(n / 10);
      DigitsValueOfNatToString(n / 10);
    }
  }

  /** The digits of `n`, followed by anything that does not start with a digit, read back as `n`. */
  lemma ParseLeadingNatOfNatToString(n: nat, rest: string)
    requires |rest| == 0 || !IsDigit(rest[0])
    ensures ParseLeadingNat(NatToString(n) + rest) == n
  {
    var d := NatToString(n);
    var s := d + rest;
    var c := LeadingDigitCount(s);
    assert forall i | 0 <= i < |d| :: s[i] == d[i] && IsDigit(s[i]);
    assert |rest| > 0 ==> s[|d|] == rest[0];
    assert c == |d|;
    assert s[..c] == d;
    DigitsValueOfNatToString(n);
  }

  /** Every integer survives rendering and reading back. */
  lemma IntToStringRoundTrip(i: int)
    ensures ParseInt(IntToString(i)) == i
  {
    if i < 0 {
      var s := IntToString(i);
      assert s[1..] == NatToString(-i) + "";
      ParseLeadingNatOfNatToString(-i, "");
    } else {
      assert NatToString(i) == NatToString(i) + "";
      ParseLeadingNatOfNatToString(i, "");
    }
  }
}
