/** Decimal rendering of naturals, as JavaScript's `String(n)` and template
    literals print a non-negative integer, with its inverse. */
module Numerals {

  predicate IsDigit(c: char) {
    '0' <= c <= '9'
  }

  predicate AllDigits(s: string) {
    forall i :: 0 <= i < |s| ==> IsDigit(s[i])
  }

  function DigitChar(d: nat): (c: char)
    requires d < 10
    ensures IsDigit(c)
  {
    (48 + d) as char
  }

  function DigitValue(c: char): (d: nat)
    requires IsDigit(c)
    ensures d < 10 && DigitChar(d) == c
  {
    (c as int) - 48
  }

  /** The shortest decimal numeral of `n`: no leading zero except for "0" itself. */
  function NatToString(n: nat): (s: string)
    ensures 1 <= |s| && AllDigits(s)
    ensures n < 10 <==> |s| == 1
    ensures s[0] == '0' ==> n == 0
  {
    if n < 10 then [DigitChar(n)] else NatToString(n / 10) + [DigitChar(n % 10)]
  }

  /** Reads a string of decimal digits, most significant first. */
  function ParseNat(s: string): nat
    requires AllDigits(s)
  {
    if s == [] then 0 else ParseNat(s[..|s| - 1]) * 10 + DigitValue(s[|s| - 1])
  }

  lemma {:induction false} ParseNatToString(n: nat)
    ensures ParseNat(NatToString(n)) == n
  {
    if n >= 10 {
      var prefix := NatToString(n / 10);
      var s := prefix + [DigitChar(n % 10)];
      assert s[..|s| - 1] == prefix;
      ParseNatToString(n / 10);
    }
  }

  /** Distinct numbers print differently. */
  lemma NatToStringInjective(a: nat, b: nat)
    requires NatToString(a) == NatToString(b)
    ensures a == b
  {
    ParseNatToString(a);
    ParseNatToString(b);
  }
}
