/** Decimal text as BigInt writes and reads it. */
module Decimals {

  const DIGITS: string := "0123456789"

  function Digits(n: nat): (s: string)
    ensures |s| >= 1
    ensures forall i :: 0 <= i < |s| ==> s[i] in DIGITS
  {
    if n < 10 then [DIGITS[n]] else Digits(n / 10) + [DIGITS[n % 10]]
  }

  /** BigInt.toString. */
  function Decimal(n: int): string {
    if n < 0 then "-" + Digits(-n) else Digits(n)
  }

  function DigitOf(c: char): (d: nat)
    requires c in DIGITS
    ensures d < 10 && DIGITS[d] == c
  {
    var d :| 0 <= d < 10 && DIGITS[d] == c;
    d
  }

  lemma DigitsDistinct(a: nat, b: nat)
    requires a < 10 && b < 10 && DIGITS[a] == DIGITS[b]
    ensures a == b
  {
  }

  predicate IsNumber(s: string) {
    s != [] && forall i :: 0 <= i < |s| ==> s[i] in DIGITS
  }

  /** The number that digits spell. */
  function NumberOf(s: string): nat
    requires IsNumber(s)
  {
    var last := DigitOf(s[|s| - 1]);
    if |s| == 1 then last else 10 * NumberOf(s[..|s| - 1]) + last
  }

  lemma LastDigit(n: nat)
    ensures DigitOf(Digits(n)[|Digits(n)| - 1]) == n % 10
    ensures n >= 10 ==> Digits(n)[..|Digits(n)| - 1] == Digits(n / 10)
    ensures n < 10 <==> |Digits(n)| == 1
  {
    var s := Digits(n);
    DigitsDistinct(DigitOf(s[|s| - 1]), n % 10);
  }

  /** Reading back what was written. */
  lemma {:induction false} NumberRoundTrip(n: nat)
    ensures NumberOf(Digits(n)) == n
  {
    LastDigit(n);
    if n >= 10 {
      NumberRoundTrip(n / 10);
    }
  }

  lemma DigitsInjective(a: nat, b: nat)
    requires Digits(a) == Digits(b)
    ensures a == b
  {
    NumberRoundTrip(a);
    NumberRoundTrip(b);
  }

  lemma SignShows(n: int)
    ensures Decimal(n)[0] == '-' <==> n < 0
  {
    if n >= 0 {
      assert Digits(n)[0] in DIGITS;
    }
  }

  /** A decimal text names one value only. */
  lemma DecimalInjective(a: int, b: int)
    requires Decimal(a) == Decimal(b)
    ensures a == b
  {
    SignShows(a);
    SignShows(b);
    if a < 0 {
      assert Decimal(a)[1..] == Digits(-a) && Decimal(b)[1..] == Digits(-b);
      DigitsInjective(-a, -b);
    } else {
      DigitsInjective(a, b);
    }
  }
}
