/** Decimal numerals, as "%d" prints them. */
module Decimals {

  function Digit(d: nat): char
    requires d < 10
  {
    ['0', '1', '2', '3', '4', '5', '6', '7', '8', '9'][d]
  }

  function Decimal(n: nat): string {
    if n < 10 then [Digit(n)] else Decimal(n / 10) + [Digit(n % 10)]
  }

  lemma {:induction false} DecimalIsDigits(n: nat)
    ensures |Decimal(n)| > 0 && forall c :: c in Decimal(n) ==> '0' <= c <= '9'
  {
    if n >= 10 {
      DecimalIsDigits(n / 10);
    }
  }

  lemma DigitInjective(d: nat, e: nat)
    requires d < 10 && e < 10 && Digit(d) == Digit(e)
    ensures d == e
  {
  }

  lemma LastDigit(n: nat)
    ensures Decimal(n) == (if n < 10 then [] else Decimal(n / 10)) + [Digit(n % 10)]
    ensures |Decimal(n)| == 1 <==> n < 10
  {
    if n >= 10 {
      DecimalIsDigits(n / 10);
    }
  }

  lemma {:induction false} DecimalInjective(m: nat, n: nat)
    requires Decimal(m) == Decimal(n)
    ensures m == n
  {
    var s := Decimal(m);
    LastDigit(m);
    LastDigit(n);
    assert s[|s| - 1] == Digit(m % 10) == Digit(n % 10);
    DigitInjective(m % 10, n % 10);
    if m >= 10 {
      assert Decimal(m / 10) == s[..|s| - 1] == Decimal(n / 10);
      DecimalInjective(m / 10, n / 10);
    }
  }
}
