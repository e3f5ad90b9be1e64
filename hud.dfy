/** The speedometer of the heads-up display: the magnitude of the car's
    speed, scaled to km/h and rounded to a whole number. */
module Hud {
  import opened Common
  import opened Text

  /** Game units per frame to displayed km/h. */
  const KmhPerUnit: real := 500.0

  /** `Math.round`: the nearest integer, halves rounded up. */
  function Round(x: real): (n: int)
    ensures n as real - 0.5 <= x < n as real + 0.5
  {
    (x + 0.5).Floor
  }

  /** The number the speedometer shows for a speed: never negative, the
      same for either direction of travel, and within half a km/h of the
      scaled magnitude. */
  function SpeedReading(speed: real): (n: nat)
    ensures n as real - 0.5 <= Abs(speed) * KmhPerUnit < n as real + 0.5
    ensures Abs(speed) <= 0.1 ==> n <= 50
  {
    Round(Abs(speed) * KmhPerUnit)
  }

  /** The speedometer text: "Speed: ", the rounded reading, " km/h". */
  function SpeedText(speed: real): (s: string)
    ensures |s| >= 13 && s[..7] == "Speed: " && s[|s| - 5..] == " km/h"
  {
    SpeedLayout(IntToString(SpeedReading(speed)));
    "Speed: " + IntToString(SpeedReading(speed)) + " km/h"
  }

  /** Driving forward or in reverse at the same speed shows the same reading. */
  lemma ReadingIgnoresDirection(speed: real)
    ensures SpeedText(-speed) == SpeedText(speed)
  {
    assert Abs(-speed) == Abs(speed);
    assert SpeedReading(-speed) == SpeedReading(speed);
  }

  /** The text "Speed: " + digits + " km/h". */
  lemma SpeedLayout(digits: string)
    ensures var s := "Speed: " + digits + " km/h";
      |s| == |digits| + 12 && s[..7] == "Speed: " && s[|s| - 5..] == " km/h" &&
      s[7..|s| - 5] == digits
  {
    var head := "Speed: " + digits;
    assert head[..7] == "Speed: " && head[7..] == digits;
    var s := head + " km/h";
    assert s[..|head|] == head;
  }

  /** The speedometer text reads back as the reading: "Speed: ", then the
      decimal digits of the reading with no sign and no leading zero, then
      " km/h". */
  lemma SpeedTextReadsBack(speed: real)
    ensures var s := SpeedText(speed);
      s[..7] == "Speed: " && s[|s| - 5..] == " km/h" &&
      s[7..|s| - 5] == Decimal(SpeedReading(speed)) &&
      (|s| > 13 ==> s[7] != '0') &&
      AllDigits(s[7..|s| - 5]) && DigitsValue(s[7..|s| - 5]) == SpeedReading(speed)
  {
    DecimalRoundTrip(SpeedReading(speed));
    SpeedLayout(Decimal(SpeedReading(speed)));
  }
}
