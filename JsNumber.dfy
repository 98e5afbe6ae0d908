/** `Number.prototype.toFixed(2)`, following the steps ECMAScript gives for it
    (section 21.1.3.3 of ECMA-262), applied to an exact real instead of a
    binary double. */
module JsNumber {

  predicate IsDigit(c: char) {
    '0' <= c <= '9'
  }

  predicate AllDigits(s: string) {
    forall i :: 0 <= i < |s| ==> IsDigit(s[i])
  }

  function DigitChar(d: nat): (c: char)
    requires d < 10
    ensures IsDigit(c) && c as int - '0' as int == d
  {
    ('0' as int + d) as char
  }

  /** The decimal digits of `n`, most significant first, "0" for zero. */
  function NatToString(n: nat): (r: string)
    ensures |r| >= 1 && AllDigits(r)
    ensures r[0] != '0' || n == 0
  {
    if n < 10 then [DigitChar(n)] else NatToString(n / 10) + [DigitChar(n % 10)]
  }

  /** The number a string of decimal digits denotes. */
  function DigitsValue(s: string): nat
    requires AllDigits(s)
  {
    if s == [] then 0 else DigitsValue(s[..|s| - 1]) * 10 + (s[|s| - 1] as int - '0' as int)
  }

  /** Reading back the digits of `n` gives `n`. */
  lemma {:induction false} DigitsRoundTrip(n: nat)
    ensures DigitsValue(NatToString(n)) == n
  {
    var r := NatToString(n);
    if n >= 10 {
      DigitsRoundTrip(n / 10);
      assert r[..|r| - 1] == NatToString(n / 10);
    }
  }

  /** A leading zero does not change the number a digit string denotes. */
  lemma {:induction false} LeadingZeroValue(s: string)
    requires AllDigits(s)
    ensures DigitsValue("0" + s) == DigitsValue(s)
  {
    if s != [] {
      assert ("0" + s)[..|"0" + s| - 1] == "0" + s[..|s| - 1];
      LeadingZeroValue(s[..|s| - 1]);
    }
  }

  /** `width - |m|` zeros before `m`, when `m` is shorter than `width`. */
  function PadLeft(m: string, width: nat): (r: string)
    requires AllDigits(m)
    ensures AllDigits(r) && |r| >= width && |r| >= |m|
    ensures DigitsValue(r) == DigitsValue(m)
    ensures |m| >= width ==> r == m
    ensures |m| < width ==>
      (|r| == width && r[|r| - |m|..] == m && forall i :: 0 <= i < |r| - |m| ==> r[i] == '0')
    decreases width - |m|
  {
    if |m| >= width then m
    else
      LeadingZeroValue(m);
      PadLeft("0" + m, width)
  }

  /** The integer `n` for which `n / 100 - x` is closest to zero, the larger
      one on a tie. */
  function Hundredths(x: real): (n: nat)
    requires x >= 0.0
    ensures x - 0.005 < n as real / 100.0 <= x + 0.005
  {
    (x * 100.0 + 0.5).Floor
  }

  /** `x.toFixed(2)` for `x >= 0`: the digits of the hundredths with a point
      before the last two, and at least one digit before the point. */
  function FixedNonNegative(x: real): (r: string)
    requires x >= 0.0
  {
    var m := PadLeft(NatToString(Hundredths(x)), 3);
    m[..|m| - 2] + "." + m[|m| - 2..]
  }

  /** `x.toFixed(2)`: a minus sign for negative `x`, then the non-negative case. */
  function ToFixed2(x: real): (r: string)
  {
    if x < 0.0 then "-" + FixedNonNegative(-x) else FixedNonNegative(x)
  }

  /** A string of the form digits "." digit digit, at least one digit before the point. */
  predicate IsTwoDecimals(s: string) {
    && |s| >= 4 && s[|s| - 3] == '.'
    && AllDigits(s[..|s| - 3]) && AllDigits(s[|s| - 2..])
  }

  /** A two-decimal string whose integer part has no leading zero, other
      than the single "0" of an amount below one. */
  predicate IsCanonicalTwoDecimals(s: string) {
    IsTwoDecimals(s) && (s[0] != '0' || |s| == 4)
  }

  /** The hundredths a two-decimal string denotes, read with the point removed. */
  function TwoDecimalsValue(s: string): nat
    requires IsTwoDecimals(s)
  {
    DigitsValue(s[..|s| - 3] + s[|s| - 2..])
  }

  /** The formatted amount for `x >= 0` always has exactly two decimals, no
      leading zero before the point except for an amount below one, and
      denotes `x` rounded to the nearest hundredth. */
  lemma {:induction false} FixedNonNegativeNearest(x: real)
    requires x >= 0.0
    ensures IsCanonicalTwoDecimals(FixedNonNegative(x))
    ensures x - 0.005 < TwoDecimalsValue(FixedNonNegative(x)) as real / 100.0 <= x + 0.005
  {
    var n := Hundredths(x);
    var m := PadLeft(NatToString(n), 3);
    var r := FixedNonNegative(x);
    assert r[..|r| - 3] == m[..|m| - 2];
    assert r[|r| - 2..] == m[|m| - 2..];
    assert r[..|r| - 3] + r[|r| - 2..] == m;
    DigitsRoundTrip(n);
  }

  /** `toFixed(2)` of any amount is an optional minus sign followed by a
      two-decimal string without leading zeros. */
  lemma ToFixed2Shape(x: real)
    ensures var r := ToFixed2(x);
      if x < 0.0 then r[0] == '-' && IsCanonicalTwoDecimals(r[1..]) else IsCanonicalTwoDecimals(r)
  {
  }

  /** The default list price of the detail view is displayed as "12.49". */
  lemma DefaultPriceText()
    ensures ToFixed2(12.49) == "12.49"
  {
  }
}
