/** The pieces of JavaScript text formatting the heads-up display uses:
    `Number.prototype.toString` on integers, `String.prototype.padStart`, and,
    as their partner, reading a string of decimal digits back as a number. */
module Text {

  predicate IsDigit(c: char) { '0' <= c <= '9' }

  predicate AllDigits(s: string) {
    forall i :: 0 <= i < |s| ==> IsDigit(s[i])
  }

  function DigitChar(d: nat): (c: char)
    requires d < 10
    ensures IsDigit(c) && c as int - '0' as int == d
  {
    ('0' as int + d) as char
  }

  /** Decimal digits of a natural number, most significant first, with no
      leading zero. */
  function Decimal(n: nat): (s: string)
    ensures AllDigits(s)
    ensures 1 <= |s|
    ensures |s| > 1 ==> s[0] != '0'
    ensures n < 10 <==> |s| == 1
    ensures 10 <= n < 100 ==> |s| == 2
    decreases n
  {
    if n < 10 then [DigitChar(n)] else Decimal(n / 10) + [DigitChar(n % 10)]
  }

  /** `toString` of an integer: a minus sign before the digits of a negative
      one. The text reads back as the number: digits of the value for a
      non-negative one, a minus sign and the digits of the magnitude for a
      negative one. */
  function IntToString(i: int): (s: string)
    ensures i >= 0 ==> AllDigits(s) && DigitsValue(s) == i
    ensures i < 0 ==> |s| >= 2 && s[0] == '-' && AllDigits(s[1..]) && DigitsValue(s[1..]) == -i
  {
    if i < 0 then
      DecimalRoundTrip(-i);
      var s := "-" + Decimal(-i);
      assert s[1..] == Decimal(-i);
      s
    else
      DecimalRoundTrip(i);
      Decimal(i)
  }

  /** The number a string of decimal digits denotes. */
  function DigitsValue(s: string): nat
    requires AllDigits(s)
    decreases |s|
  {
    if s == [] then 0
    else DigitsValue(s[..|s| - 1]) * 10 + (s[|s| - 1] as int - '0' as int)
  }

  /** Reading the decimal text of a number gives the number back. */
  lemma {:induction false} DecimalRoundTrip(n: nat)
    ensures DigitsValue(Decimal(n)) == n
    decreases n
  {
    if n >= 10 {
      DecimalRoundTrip(n / 10);
      var s := Decimal(n);
      assert s[..|s| - 1] == Decimal(n / 10);
    }
  }

  /** `padStart(width, fill)`: `s` prefixed with as many fill characters as
      it takes to reach `width`; a string already that long is unchanged. */
  function PadStart(s: string, width: nat, fill: char): (r: string)
    ensures |r| == if |s| >= width then |s| else width
    decreases width - |s|
  {
    if |s| >= width then s else PadStart([fill] + s, width, fill)
  }

  /** The padded text ends with the original string, and everything before
      it is the fill character. */
  lemma {:induction false} PadStartShape(s: string, width: nat, fill: char)
    ensures var r := PadStart(s, width, fill);
      r[|r| - |s|..] == s && forall i :: 0 <= i < |r| - |s| ==> r[i] == fill
    decreases width - |s|
  {
    if |s| < width {
      PadStartShape([fill] + s, width, fill);
      var r := PadStart(s, width, fill);
      assert r == PadStart([fill] + s, width, fill);
      assert r[|r| - |s|..] == r[|r| - |s| - 1..][1..];
      assert r[|r| - |s| - 1] == fill;
    }
  }

  /** A leading zero does not change the value of a digit string. */
  lemma {:induction false} LeadingZero(s: string)
    requires AllDigits(s)
    ensures AllDigits("0" + s) && DigitsValue("0" + s) == DigitsValue(s)
    decreases |s|
  {
    if s != [] {
      var t := "0" + s;
      assert t[..|t| - 1] == "0" + s[..|s| - 1];
      LeadingZero(s[..|s| - 1]);
    } else {
      assert DigitsValue("0") == DigitsValue("") * 10 + 0;
    }
  }

  /** Zero-padding the decimal text of a number keeps it readable as that
      number. */
  lemma {:induction false} ZeroPaddedRoundTrip(s: string, width: nat)
    requires AllDigits(s)
    ensures AllDigits(PadStart(s, width, '0'))
    ensures DigitsValue(PadStart(s, width, '0')) == DigitsValue(s)
    decreases width - |s|
  {
    if |s| < width {
      LeadingZero(s);
      assert "0" + s == ['0'] + s;
      ZeroPaddedRoundTrip(['0'] + s, width);
    }
  }

  /** The two-digit zero-padded text of a number below 100, and its value. */
  lemma TwoDigits(n: nat)
    requires n < 100
    ensures |PadStart(IntToString(n), 2, '0')| == 2
    ensures AllDigits(PadStart(IntToString(n), 2, '0'))
    ensures DigitsValue(PadStart(IntToString(n), 2, '0')) == n
  {
    DecimalRoundTrip(n);
    ZeroPaddedRoundTrip(Decimal(n), 2);
  }
}
