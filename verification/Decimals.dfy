/** Numbers written in decimal digits. */
module Decimals {

  function Digit(n: nat): char
    requires n < 10
  {
    ('0' as int + n) as char
  }

  /** The decimal digits of `n`. */
  function Decimal(n: nat): (digits: string)
    ensures |digits| > 0
  {
    if n < 10 then [Digit(n)] else Decimal(n / 10) + [Digit(n % 10)]
  }

  predicate IsDigit(c: char) {
    '0' <= c <= '9'
  }

  predicate AllDigits(text: string) {
    forall i :: 0 <= i < |text| ==> IsDigit(text[i])
  }

  /** The number a run of digits stands for. */
  function Number(digits: string): nat
    requires AllDigits(digits)
  {
    if digits == "" then 0
    else 10 * Number(digits[..|digits| - 1]) + (digits[|digits| - 1] as int - '0' as int)
  }

  /** No zero in front, but for zero itself. */
  predicate Canonical(digits: string) {
    digits != "" && AllDigits(digits) && (|digits| == 1 || digits[0] != '0')
  }

  lemma {:induction false} NumberOfDecimal(n: nat)
    ensures Canonical(Decimal(n)) && Number(Decimal(n)) == n && (n > 0 ==> Decimal(n)[0] != '0')
  {
    if n >= 10 {
      NumberOfDecimal(n / 10);
      var digits := Decimal(n);
      assert digits[..|digits| - 1] == Decimal(n / 10);
    }
  }

  lemma {:induction false} NumberPositive(digits: string)
    requires AllDigits(digits) && digits != "" && digits[0] != '0'
    ensures Number(digits) > 0
  {
    if |digits| > 1 { NumberPositive(digits[..|digits| - 1]); }
  }

  /** A canonical run of digits is the decimal form of its number, so the two are a bijection. */
  lemma {:induction false} DecimalOfNumber(digits: string)
    requires Canonical(digits)
    ensures Decimal(Number(digits)) == digits
  {
    if |digits| > 1 {
      var front := digits[..|digits| - 1];
      NumberPositive(front);
      DecimalOfNumber(front);
    }
  }
}
