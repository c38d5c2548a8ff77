/** Numbers in decimal, as `toString(10)` and template strings print them. */
module Decimal {

  predicate IsDigit(c: char) {
    '0' <= c <= '9'
  }

  ghost predicate AllDigits(s: string) {
    forall i :: 0 <= i < |s| ==> IsDigit(s[i])
  }

  function Digit(d: nat): (c: char)
    requires d < 10
    ensures IsDigit(c) && DigitValue(c) == d
  {
    (48 + d) as char
  }

  function DigitValue(c: char): nat
    requires IsDigit(c)
  {
    c as int - 48
  }

  function ToDecimal(n: nat): (s: string)
    ensures |s| > 0 && AllDigits(s)
  {
    if n < 10 then [Digit(n)] else ToDecimal(n / 10) + [Digit(n % 10)]
  }

  ghost function FromDecimal(s: string): nat
    requires AllDigits(s)
  {
    if s == [] then 0 else FromDecimal(s[..|s|-1]) * 10 + DigitValue(s[|s|-1])
  }

  lemma {:induction false} DecimalRoundTrip(n: nat)
    ensures FromDecimal(ToDecimal(n)) == n
  {
    if n >= 10 {
      DecimalRoundTrip(n / 10);
      var s := ToDecimal(n);
      assert s[..|s|-1] == ToDecimal(n / 10) && s[|s|-1] == Digit(n % 10);
    }
  }

  lemma DecimalIsInjective(m: nat, n: nat)
    requires ToDecimal(m) == ToDecimal(n)
    ensures m == n
  {
    DecimalRoundTrip(m);
    DecimalRoundTrip(n);
  }

  /** `padStart(places, '0')`. */
  function PadZeros(n: nat, places: nat): (s: string)
    ensures AllDigits(s) && |s| >= places && |s| > 0
  {
    Padded(ToDecimal(n), places)
  }

  function Padded(s: string, places: nat): (r: string)
    requires AllDigits(s)
    ensures AllDigits(r) && |r| >= places && |r| >= |s|
    decreases places - |s|
  {
    if |s| >= places then s else Padded("0" + s, places)
  }

  lemma {:induction false} LeadingZero(s: string)
    requires AllDigits(s)
    ensures AllDigits("0" + s) && FromDecimal("0" + s) == FromDecimal(s)
  {
    var z := "0" + s;
    assert AllDigits(z);
    if s == [] {
      assert z[..0] == [];
    } else {
      LeadingZero(s[..|s|-1]);
      assert z[..|z|-1] == "0" + s[..|s|-1];
    }
  }

  lemma {:induction false} PaddingKeepsValue(s: string, places: nat)
    requires AllDigits(s)
    ensures FromDecimal(Padded(s, places)) == FromDecimal(s)
    decreases places - |s|
  {
    if |s| < places {
      LeadingZero(s);
      PaddingKeepsValue("0" + s, places);
    }
  }

  lemma PadZerosValue(n: nat, places: nat)
    ensures FromDecimal(PadZeros(n, places)) == n
  {
    DecimalRoundTrip(n);
    PaddingKeepsValue(ToDecimal(n), places);
  }
}
