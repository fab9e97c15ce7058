/**
 * Decimal rendering of integers, as a JavaScript template literal `${n}` prints a safe
 * integer (magnitude at most 2^53); larger numbers are printed differently by JavaScript.
 */
module Decimal {

  predicate IsDigit(c: char) {
    '0' <= c <= '9'
  }

  predicate AllDigits(s: string) {
    forall i | 0 <= i < |s| :: IsDigit(s[i])
  }

  /** A non-empty digit string without leading zeros: the form in which integers are printed. */
  predicate Canonical(s: string) {
    |s| >= 1 && AllDigits(s) && (s[0] == '0' ==> |s| == 1)
  }

  function DigitValue(c: char): (d: nat)
    requires IsDigit(c)
    ensures d < 10
  {
    (c as int) - ('0' as int)
  }

  function DigitChar(d: nat): (c: char)
    requires d < 10
    ensures IsDigit(c) && DigitValue(c) == d
  {
    (('0' as int) + d) as char
  }

  /** The decimal text of `n`. */
  function NatToText(n: nat): (s: string)
    ensures Canonical(s)
    ensures s[0] == '0' <==> n == 0
  {
    if n < 10 then [DigitChar(n)] else NatToText(n / 10) + [DigitChar(n % 10)]
  }

  /** The number a digit string denotes (leading zeros allowed). */
  function TextToNat(s: string): nat
    requires AllDigits(s)
  {
    if s == [] then 0 else 10 * TextToNat(s[..|s| - 1]) + DigitValue(s[|s| - 1])
  }

  /** The decimal text of an integer, with a leading `-` when it is negative. */
  function IntToText(i: int): string {
    if i < 0 then "-" + NatToText(-i) else NatToText(i)
  }

  /** Reading back the printed text gives the number: printing is injective. */
  lemma {:induction false} TextToNatOfNatToText(n: nat)
    ensures TextToNat(NatToText(n)) == n
  {
    if n >= 10 {
      var s := NatToText(n);
      assert s[..|s| - 1] == NatToText(n / 10);
      TextToNatOfNatToText(n / 10);
    }
  }

  lemma {:induction false} CanonicalIsPositive(s: string)
    requires Canonical(s) && s[0] != '0'
    ensures TextToNat(s) >= 1
  {
    if |s| > 1 {
      var p := s[..|s| - 1];
      assert p[0] == s[0];
      CanonicalIsPositive(p);
    }
  }

  /** Every canonical digit string is the printed form of the number it denotes. */
  lemma {:induction false} NatToTextOfTextToNat(s: string)
    requires Canonical(s)
    ensures NatToText(TextToNat(s)) == s
  {
    if |s| > 1 {
      var p := s[..|s| - 1];
      assert p[0] == s[0];
      CanonicalIsPositive(p);
      NatToTextOfTextToNat(p);
      var n := TextToNat(s);
      assert n / 10 == TextToNat(p) && n % 10 == DigitValue(s[|s| - 1]);
      assert s == p + [s[|s| - 1]];
    }
  }
}
