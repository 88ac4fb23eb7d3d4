/**
 * `String(n)` for the non-negative integers upstream uses as identifiers
 * (order numbers, customer ids), and its inverse.
 */
module Decimal {
  import opened JsValues

  predicate IsDigit(c: char) {
    '0' <= c <= '9'
  }

  predicate AllDigits(s: string) {
    forall k :: 0 <= k < |s| ==> IsDigit(s[k])
  }

  /** The strings `String(n)` produces: digits only, no leading zero except "0" itself. */
  predicate IsCanonical(s: string) {
    |s| >= 1 && AllDigits(s) && (s[0] == '0' ==> |s| == 1)
  }

  function DigitChar(d: nat): char
    requires d < 10
  {
    (48 + d) as char
  }

  function DigitValue(c: char): nat
    requires IsDigit(c)
  {
    c as int - 48
  }

  /** The number a string of decimal digits denotes. */
  function Value(s: string): nat
    requires AllDigits(s)
    decreases |s|
  {
    if s == [] then 0 else Value(s[..|s| - 1]) * 10 + DigitValue(s[|s| - 1])
  }

  /** `String(n)`: the decimal rendering of `n`, canonical and denoting `n`. */
  function ToDecimal(n: nat): (s: string)
    ensures IsCanonical(s)
    ensures Value(s) == n
    decreases n
  {
    if n < 10 then
      [DigitChar(n)]
    else
      var prefix := ToDecimal(n / 10);
      var s := prefix + [DigitChar(n % 10)];
      assert s[..|s| - 1] == prefix;
      s
  }

  /** Reads back a canonical decimal string; anything else is not a rendering of a number. */
  function Parse(s: string): Option<nat> {
    if IsCanonical(s) then Some(Value(s)) else None
  }

  lemma {:induction false} LeadingNonZero(s: string)
    requires |s| >= 1 && AllDigits(s) && s[0] != '0'
    ensures Value(s) >= 1
    decreases |s|
  {
    if |s| > 1 {
      LeadingNonZero(s[..|s| - 1]);
    }
  }

  /** Every canonical string is the rendering of the number it denotes. */
  lemma {:induction false} ToDecimalOfValue(s: string)
    requires IsCanonical(s)
    ensures ToDecimal(Value(s)) == s
    decreases |s|
  {
    var d := DigitValue(s[|s| - 1]);
    assert DigitChar(d) == s[|s| - 1];
    if |s| == 1 {
      assert s == [s[0]];
    } else {
      var prefix := s[..|s| - 1];
      LeadingNonZero(prefix);
      ToDecimalOfValue(prefix);
      assert s == prefix + [s[|s| - 1]];
    }
  }

  /** `Parse` is exactly the inverse of `ToDecimal`, in both directions. */
  lemma ParseIsInverse(s: string, n: nat)
    ensures Parse(s) == Some(n) <==> ToDecimal(n) == s
  {
    if Parse(s) == Some(n) {
      ToDecimalOfValue(s);
    }
  }

  /** Distinct numbers render to distinct strings. */
  lemma ToDecimalInjective(a: nat, b: nat)
    ensures ToDecimal(a) == ToDecimal(b) <==> a == b
  {
  }
}
