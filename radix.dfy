/** Digit strings in radix 10 and 16: the digit alphabet that `parseInt` accepts
    (ECMA-262 section 19.2.5), their value, and the decimal rendering of
    non-negative integers that `Number::toString` produces for integral values. */
module Radix {

  /** `c` is a digit of `radix` (10 or 16; letters of either case for 16). */
  predicate IsDigit(c: char, radix: nat)
  {
    ('0' <= c <= '9') || (radix == 16 && (('a' <= c <= 'f') || ('A' <= c <= 'F')))
  }

  predicate AllDigits(ds: string, radix: nat)
  {
    forall i | 0 <= i < |ds| :: IsDigit(ds[i], radix)
  }

  /** The value of one digit. */
  function DigitValue(c: char, radix: nat): (d: nat)
    requires radix == 10 || radix == 16
    requires IsDigit(c, radix)
    ensures d < radix
  {
    if '0' <= c <= '9' then c as int - '0' as int
    else if 'a' <= c <= 'f' then c as int - 'a' as int + 10
    else c as int - 'A' as int + 10
  }

  /** The decimal digit character for `d`. */
  function DecimalDigit(d: nat): (c: char)
    requires d < 10
    ensures IsDigit(c, 10) && DigitValue(c, 10) == d
  {
    ['0', '1', '2', '3', '4', '5', '6', '7', '8', '9'][d]
  }

  /** The mathematical value of a digit string read most-significant digit first. */
  function ValueOf(ds: string, radix: nat): nat
    requires radix == 10 || radix == 16
    requires AllDigits(ds, radix)
  {
    if ds == [] then 0
    else ValueOf(ds[..|ds| - 1], radix) * radix + DigitValue(ds[|ds| - 1], radix)
  }

  /** The shortest decimal rendering of `n`: no sign, no leading zero unless `n` is 0. */
  function DecimalString(n: nat): (s: string)
    ensures s != [] && AllDigits(s, 10)
    ensures s[0] == '0' ==> s == "0"
  {
    if n < 10 then [DecimalDigit(n)]
    else DecimalString(n / 10) + [DecimalDigit(n % 10)]
  }

  /** A digit string without a superfluous leading zero. */
  predicate IsCanonical(ds: string)
  {
    ds != [] && AllDigits(ds, 10) && (ds[0] == '0' ==> |ds| == 1)
  }

  /** Reading back a decimal rendering gives the number rendered. */
  lemma {:induction false} ValueOfDecimalString(n: nat)
    ensures ValueOf(DecimalString(n), 10) == n
  {
    var s := DecimalString(n);
    if n >= 10 {
      ValueOfDecimalString(n / 10);
      assert s[..|s| - 1] == DecimalString(n / 10);
    }
  }

  /** A canonical digit string that does not start with 0 has a positive value. */
  lemma {:induction false} LeadingNonZeroIsPositive(ds: string)
    requires ds != [] && AllDigits(ds, 10) && ds[0] != '0'
    ensures ValueOf(ds, 10) >= 1
  {
    if |ds| > 1 {
      LeadingNonZeroIsPositive(ds[..|ds| - 1]);
    } else {
      assert DigitValue(ds[0], 10) != 0;
    }
  }

  /** Rendering the value of a canonical digit string gives that string back. */
  lemma {:induction false} DecimalStringOfValue(ds: string)
    requires IsCanonical(ds)
    ensures DecimalString(ValueOf(ds, 10)) == ds
  {
    var last := ds[|ds| - 1];
    if |ds| == 1 {
      assert ds == [last];
      assert DecimalDigit(DigitValue(last, 10)) == last;
    } else {
      var front := ds[..|ds| - 1];
      assert front[0] == ds[0] != '0';
      LeadingNonZeroIsPositive(front);
      DecimalStringOfValue(front);
      var v := ValueOf(ds, 10);
      assert v == ValueOf(front, 10) * 10 + DigitValue(last, 10);
      assert v / 10 == ValueOf(front, 10) && v % 10 == DigitValue(last, 10);
      assert DecimalDigit(DigitValue(last, 10)) == last;
      assert ds == front + [last];
    }
  }
}
