/** The day/night controller: a clock that advances a fixed amount every
    frame and wraps to midnight at 24, and what the scene and the time display
    show for a clock value (sky colour, ambient light intensity, HH:MM text).
    The sine the sky and the light depend on is a parameter. */
module DayNight {
  import opened Text

  /** Hours added to the clock every frame. */
  const Increment: real := 0.01
  const DayLength: real := 24.0
  const StartTime: real := 12.0
  /** The ambient light never gets dimmer than this. */
  const AmbientFloor: real := 0.2
  const Dawn: real := 6.0
  const Dusk: real := 18.0

  /** The clock one frame later: it moves on by the increment and, on
      reaching 24, is set to exactly 0 (the overshoot is dropped). */
  function Advanced(t: real): (r: real)
    ensures 0.0 <= t < DayLength ==> 0.0 <= r < DayLength
    ensures t + Increment < DayLength ==> r == t + Increment
    ensures t + Increment >= DayLength ==> r == 0.0
  {
    var next := t + Increment;
    if next >= DayLength then 0.0 else next
  }

  /** The clock after `k` frames. */
  function AdvancedTimes(t: real, k: nat): real
    decreases k
  {
    if k == 0 then t else Advanced(AdvancedTimes(t, k - 1))
  }

  /** Measured in exact arithmetic, a day starting at midnight lasts 2400
      frames: the clock reads k/100 after k < 2400 frames and is back at 0
      after 2400. */
  lemma {:induction false} DayLasts2400Frames(k: nat)
    requires k <= 2400
    ensures k < 2400 ==> AdvancedTimes(0.0, k) == k as real * Increment
    ensures k == 2400 ==> AdvancedTimes(0.0, k) == 0.0
    decreases k
  {
    if k > 0 {
      DayLasts2400Frames(k - 1);
    }
  }

  /** The wrap is not a reduction modulo 24: from 23.995 the clock goes to
      0, not to 0.005. */
  lemma WrapDropsOvershoot()
    ensures Advanced(23.995) == 0.0 && 23.995 + Increment - DayLength == 0.005
  {
  }

  datatype Rgb = Rgb(r: real, g: real, b: real)

  const NightSky: Rgb := Rgb(0.1, 0.1, 0.2)

  predicate IsDaytime(t: real) {
    Dawn <= t < Dusk
  }

  /** The sky (and fog) colour for clock value `t`; `sine` stands for
      sin((t - 6) / 12 * pi). By day the three channels rise with the sine;
      at night the colour is a fixed dark blue. */
  function SkyColor(t: real, sine: real): (c: Rgb)
    ensures !IsDaytime(t) ==> c == NightSky
    ensures IsDaytime(t) && 0.0 <= sine <= 1.0 ==>
      0.529 <= c.r <= 0.629 && 0.808 <= c.g <= 0.908 && 0.922 <= c.b <= 0.972
  {
    if IsDaytime(t) then Rgb(0.529 + sine * 0.1, 0.808 + sine * 0.1, 0.922 + sine * 0.05)
    else NightSky
  }

  /** By day the sky brightens as the sine grows: every channel is
      monotone in the sine. */
  lemma SkyRisesWithSine(t: real, s1: real, s2: real)
    requires IsDaytime(t) && s1 <= s2
    ensures SkyColor(t, s1).r <= SkyColor(t, s2).r
    ensures SkyColor(t, s1).g <= SkyColor(t, s2).g
    ensures SkyColor(t, s1).b <= SkyColor(t, s2).b
  {
  }

  /** Ambient light intensity: the sine, but never below 0.2. */
  function Ambient(sine: real): (a: real)
    ensures a >= AmbientFloor && a >= sine
    ensures a == AmbientFloor || a == sine
  {
    if sine > AmbientFloor then sine else AmbientFloor
  }

  /** `Math.trunc`, the integer part toward zero; `t % 1` in JavaScript is
      `t - Math.trunc(t)`, so it keeps the sign of `t`. */
  function Trunc(t: real): (n: int)
    ensures 0.0 <= t ==> n as real <= t < n as real + 1.0
    ensures t < 0.0 ==> n as real - 1.0 < t <= n as real
  {
    if t >= 0.0 then t.Floor else -((-t).Floor)
  }

  /** The displayed hour: `Math.floor` of the clock. */
  function Hours(t: real): (h: int)
    ensures h as real <= t < h as real + 1.0
    ensures 0.0 <= t < DayLength ==> 0 <= h <= 23
  {
    t.Floor
  }

  /** The displayed minute: `Math.floor` of 60 times `t % 1`, where the
      JavaScript remainder keeps the sign of `t`. On a clock inside the day
      it is the minute of the hour: the clock lies in that minute. */
  function Minutes(t: real): (m: int)
    ensures 0.0 <= t ==> 0 <= m <= 59
    ensures 0.0 <= t ==>
      Hours(t) as real + m as real / 60.0 <= t < Hours(t) as real + (m + 1) as real / 60.0
  {
    ((t - Trunc(t) as real) * 60.0).Floor
  }

  /** The text of the time display: "Time: ", then the hour and the minute,
      each padded on the left with '0' to at least two characters, with a
      colon between them. */
  function TimeText(t: real): (s: string)
    ensures |s| >= 11 && s[..6] == "Time: "
  {
    var hh := PadStart(IntToString(Hours(t)), 2, '0');
    var mm := PadStart(IntToString(Minutes(t)), 2, '0');
    TimeLayout(hh, mm);
    "Time: " + hh + ":" + mm
  }

  /** The text "Time: " + hh + ":" + mm, cut back into its fields. */
  lemma TimeLayout(hh: string, mm: string)
    ensures var s := "Time: " + hh + ":" + mm;
      |s| == |hh| + |mm| + 7 && s[..6] == "Time: " && s[6 + |hh|] == ':' &&
      s[6..6 + |hh|] == hh && s[7 + |hh|..] == mm
  {
    var head := "Time: " + hh;
    assert |head| == 6 + |hh| && head[..6] == "Time: " && head[6..] == hh;
    var s := head + ":" + mm;
    assert s[..6 + |hh|] == head;
    assert s[7 + |hh|..] == mm;
  }

  /** On a clock inside the day the time display has the form "Time: HH:MM",
      each field two zero-padded digits that read back as the hour and the
      minute. */
  lemma TimeTextReadsBack(t: real)
    requires 0.0 <= t < DayLength
    ensures |TimeText(t)| == 11
    ensures TimeText(t)[..6] == "Time: " && TimeText(t)[8] == ':'
    ensures AllDigits(TimeText(t)[6..8]) && DigitsValue(TimeText(t)[6..8]) == Hours(t)
    ensures AllDigits(TimeText(t)[9..]) && DigitsValue(TimeText(t)[9..]) == Minutes(t)
  {
    TwoDigits(Hours(t));
    TwoDigits(Minutes(t));
    TimeLayout(PadStart(IntToString(Hours(t)), 2, '0'), PadStart(IntToString(Minutes(t)), 2, '0'));
  }

  /** The clock the game keeps; what it drives (sky, fog, light, text) is
      handed back to the scene and the page. */
  class Clock {
    var timeOfDay: real

    ghost predicate Valid()
      reads this
    {
      0.0 <= timeOfDay < DayLength
    }

    constructor ()
      ensures Valid() && timeOfDay == StartTime
    {
      timeOfDay := StartTime;
    }

    /** One frame of the day/night cycle. `sine` is sin((t - 6) / 12 * pi)
        of the advanced clock value t. */
    method Update(sine: real) returns (sky: Rgb, ambient: real, text: string)
      requires Valid()
      modifies this
      ensures Valid()
      ensures timeOfDay == Advanced(old(timeOfDay))
      ensures sky == SkyColor(timeOfDay, sine)
      ensures ambient == Ambient(sine) && ambient >= AmbientFloor
      ensures text == TimeText(timeOfDay)
    {
      timeOfDay := timeOfDay + Increment;
      if timeOfDay >= DayLength {
        timeOfDay := 0.0;
      }
      sky := SkyColor(timeOfDay, sine);
      ambient := Ambient(sine);
      text := TimeText(timeOfDay);
    }
  }
}
