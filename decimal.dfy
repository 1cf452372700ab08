/**
 * Decimal rendering of non-negative numbers, as Kotlin string templates
 * ("$count files") and `String.format("%02d", n)` print them.
 */
module Decimal {

  predicate IsDigit(c: char) {
    '0' <= c <= '9'
  }

  predicate IsDigits(s: string) {
    forall i :: 0 <= i < |s| ==> IsDigit(s[i])
  }

  function DigitChar(d: nat): (c: char)
    requires d < 10
    ensures IsDigit(c) && (c as int) - ('0' as int) == d
  {
    (('0' as int) + d) as char
  }

  /** The number a string of decimal digits denotes (most significant first). */
  function ParseDigits(s: string): nat
    requires IsDigits(s)
  {
    if s == [] then 0
    else ParseDigits(s[..|s| - 1]) * 10 + ((s[|s| - 1] as int) - ('0' as int))
  }

  /** Shortest decimal rendering: at least one digit, no leading zero. */
  function NatToString(n: nat): (s: string)
    ensures IsDigits(s) && 1 <= |s|
    ensures |s| > 1 ==> s[0] != '0'
    ensures n < 10 <==> |s| == 1
  {
    if n < 10 then [DigitChar(n)] else NatToString(n / 10) + [DigitChar(n % 10)]
  }

  /** Rendering and parsing are inverse: the rendered string denotes n. */
  lemma {:induction false} ParseNatToString(n: nat)
    ensures ParseDigits(NatToString(n)) == n
  {
    if n >= 10 {
      var s := NatToString(n);
      assert s[..|s| - 1] == NatToString(n / 10);
      ParseNatToString(n / 10);
    }
  }

  /** Rendering is injective: different numbers never print alike. */
  lemma NatToStringInjective(m: nat, n: nat)
    requires NatToString(m) == NatToString(n)
    ensures m == n
  {
    ParseNatToString(m);
    ParseNatToString(n);
  }

  /** `%02d` of a non-negative number: zero-padded to at least two digits. */
  function ZeroPad2(n: nat): (s: string)
    ensures IsDigits(s) && 2 <= |s|
    ensures ParseDigits(s) == n
    ensures n < 100 ==> |s| == 2
    ensures |s| > 2 ==> s[0] != '0'
  {
    ParseNatToString(n);
    if n < 10 then ['0', DigitChar(n)] else NatToString(n)
  }
}
