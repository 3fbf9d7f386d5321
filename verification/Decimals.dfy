/** Decimal numerals, as `str(int)` writes them. */
module Decimals {
  function Digit(n: nat): char
    requires n < 10
  {
    ('0' as int + n) as char
  }

  predicate IsDigit(c: char) {
    '0' <= c <= '9'
  }

  function DigitValue(c: char): nat
    requires IsDigit(c)
  {
    c as int - '0' as int
  }

  function Decimal(n: nat): string {
    if n < 10 then [Digit(n)] else Decimal(n / 10) + [Digit(n % 10)]
  }

  /** The number a digit string denotes. */
  function Value(digits: string): nat
    requires forall i :: 0 <= i < |digits| ==> IsDigit(digits[i])
  {
    if |digits| == 0 then 0
    else 10 * Value(digits[..|digits| - 1]) + DigitValue(digits[|digits| - 1])
  }

  lemma DigitRoundTrip(n: nat)
    requires n < 10
    ensures IsDigit(Digit(n)) && DigitValue(Digit(n)) == n
  {
  }

  /** A numeral consists of digits and denotes the number it was made from. */
  lemma {:induction false} DecimalRoundTrip(n: nat)
    ensures |Decimal(n)| > 0
    ensures forall i :: 0 <= i < |Decimal(n)| ==> IsDigit(Decimal(n)[i])
    ensures Value(Decimal(n)) == n
  {
    DigitRoundTrip(n % 10);
    if n >= 10 {
      DecimalRoundTrip(n / 10);
      assert Decimal(n)[..|Decimal(n)| - 1] == Decimal(n / 10);
    }
  }

  lemma {:induction false} NumeralsDiffer(n: nat, m: nat)
    ensures Decimal(n) == Decimal(m) <==> n == m
  {
    hide Decimal;
    DecimalRoundTrip(n);
    DecimalRoundTrip(m);
  }

  /** A text and a number, joined by a hyphen, can be told from the whole: numerals have no hyphen. */
  lemma NumberedTextsDiffer(text: string, n: nat, text': string, n': nat)
    ensures text + "-" + Decimal(n) == text' + "-" + Decimal(n') <==> text == text' && n == n'
  {
    hide Decimal;
    DecimalRoundTrip(n);
    DecimalRoundTrip(n');
    var whole, whole' := text + "-" + Decimal(n), text' + "-" + Decimal(n');
    if whole == whole' {
      assert whole[|text|] == '-' && whole'[|text'|] == '-';
      assert forall i :: |text| < i < |whole| ==> whole[i] == Decimal(n)[i - |text| - 1];
      assert forall i :: |text'| < i < |whole'| ==> whole'[i] == Decimal(n')[i - |text'| - 1];
      assert |text| == |text'|;
      assert text == whole[..|text|] && text' == whole'[..|text'|];
      assert Decimal(n) == whole[|text| + 1..] && Decimal(n') == whole'[|text'| + 1..];
    }
  }
}
