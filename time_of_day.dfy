/**
 * `TimeOfDay`: a five-minute day clock that colours the scene. During the
 * first half of the day the sun rises (first quarter of that half), stays up,
 * then sets (last quarter); each transition walks through eight colour
 * sections and blends linearly within a section. In the second half of the
 * day nothing is updated, so the last colours stay.
 */
module TimeOfDayModel {
  import opened MathUtil

  /** SharpDX `Color4`: red, green, blue, alpha; the operators act on all four components. */
  datatype Color4 = Color4(r: real, g: real, b: real, a: real)

  function Add(x: Color4, y: Color4): Color4
  {
    Color4(x.r + y.r, x.g + y.g, x.b + y.b, x.a + y.a)
  }

  function Sub(x: Color4, y: Color4): Color4
  {
    Color4(x.r - y.r, x.g - y.g, x.b - y.b, x.a - y.a)
  }

  function Scale(x: Color4, k: real): Color4
  {
    Color4(x.r * k, x.g * k, x.b * k, x.a * k)
  }

  const Black: Color4 := Color4(0.0, 0.0, 0.0, 1.0)
  const White: Color4 := Color4(1.0, 1.0, 1.0, 1.0)

  function Rgb255(r: int, g: int, b: int): Color4
  {
    Color4(r as real / 255.0, g as real / 255.0, b as real / 255.0, 1.0)
  }

  const Sunrise1: Color4 := Rgb255(88, 21, 26)
  const Sunrise2: Color4 := Rgb255(188, 41, 9)
  const Sunrise3: Color4 := Rgb255(186, 109, 9)
  const Sunrise4: Color4 := Rgb255(113, 168, 238)
  const Sunrise5: Color4 := Rgb255(48, 114, 235)
  const Sunrise6: Color4 := Rgb255(21, 82, 198)
  const Sunrise7: Color4 := Rgb255(5, 66, 168)

  const DayTimeBlue: Color4 := Color4(0.0, 0.15, 0.66, 1.0)

  const Sunset1: Color4 := Rgb255(62, 88, 121)
  const Sunset2: Color4 := Rgb255(155, 165, 174)
  const Sunset3: Color4 := Rgb255(220, 182, 151)
  const Sunset4: Color4 := Rgb255(252, 112, 1)
  const Sunset5: Color4 := Rgb255(221, 114, 60)
  const Sunset6: Color4 := Rgb255(173, 74, 40)
  const Sunset7: Color4 := Rgb255(4, 3, 8)

  /** `Settings.LengthOfDay` (five minutes) in milliseconds. */
  const LengthOfDay: real := 300000.0

  /** Each sunrise or sunset is cut into eight sections of this width. */
  const SectionWidth: real := 0.125

  /** The four outputs of the sun update. */
  datatype Lighting = Lighting(ambient: Color4, horizon: Color4, sky: Color4, cloudBrightness: real)

  /** `_currentTime` after `Frame` adds the frame time and subtracts one day length at most once. */
  function AdvanceClock(time: real, frameTime: real): (t: real)
    ensures 0.0 <= time <= LengthOfDay && 0.0 <= frameTime <= LengthOfDay ==> 0.0 <= t <= LengthOfDay
    ensures t == time + frameTime || t == time + frameTime - LengthOfDay
    ensures time + frameTime <= LengthOfDay ==> t == time + frameTime
  {
    var t := time + frameTime;
    if t > LengthOfDay then t - LengthOfDay else t
  }

  /** The section the `while (temp >= 0.125)` loop counts up to, starting from 1. */
  function SectionOf(arg: real): int
    decreases if arg < SectionWidth then 0 else (arg * 8.0).Floor
  {
    if arg >= SectionWidth then 1 + SectionOf(arg - SectionWidth) else 1
  }

  /** The `temp` the same loop leaves behind. */
  function LeftoverOf(arg: real): real
    decreases if arg < SectionWidth then 0 else (arg * 8.0).Floor
  {
    if arg >= SectionWidth then LeftoverOf(arg - SectionWidth) else arg
  }

  /** The blend weight inside the section, `temp / 0.125`. */
  function WeightOf(arg: real): real
  {
    LeftoverOf(arg) / SectionWidth
  }

  /** For a non-negative argument the loop computes 1 + floor(arg / 0.125) and leaves the remainder. */
  lemma {:induction false} SectionFormula(arg: real)
    requires arg >= 0.0
    ensures SectionOf(arg) == 1 + (arg * 8.0).Floor
    ensures 0.0 <= LeftoverOf(arg) < SectionWidth
    ensures arg == (SectionOf(arg) - 1) as real * SectionWidth + LeftoverOf(arg)
    decreases if arg < SectionWidth then 0 else (arg * 8.0).Floor
  {
    if arg >= SectionWidth {
      SectionFormula(arg - SectionWidth);
      assert (arg - SectionWidth) * 8.0 == arg * 8.0 - 1.0;
    }
  }

  /** The weight used to blend the two section colours lies in [0, 1). */
  lemma WeightInUnitInterval(arg: real)
    requires arg >= 0.0
    ensures 0.0 <= WeightOf(arg) < 1.0
  {
    SectionFormula(arg);
  }

  /** An argument below 1 stays within the eight listed sections; exactly 1 reaches section 9. */
  lemma SectionRange(arg: real)
    requires 0.0 <= arg <= 1.0
    ensures 1 <= SectionOf(arg) <= 9
    ensures arg < 1.0 ==> SectionOf(arg) <= 8
    ensures arg == 1.0 ==> SectionOf(arg) == 9
  {
    SectionFormula(arg);
  }

  /** The section loop shared by `UpdateSunrise` and `UpdateSunset`. */
  method CountSections(arg: real) returns (section: int, temp: real)
    ensures section == SectionOf(arg) && temp == LeftoverOf(arg)
  {
    section := 1;
    temp := arg;
    while temp >= SectionWidth
      invariant section - 1 + SectionOf(temp) == SectionOf(arg)
      invariant LeftoverOf(temp) == LeftoverOf(arg)
      decreases (temp * 8.0).Floor
    {
      assert (temp - SectionWidth) * 8.0 == temp * 8.0 - 1.0;
      temp := temp - SectionWidth;
      section := section + 1;
    }
  }

  /** The (current, next) colours of a sunrise section; any other section keeps the initial Black, Black. */
  function SunriseColours(section: int): (Color4, Color4)
  {
    match section
    case 1 => (Black, Sunrise1)
    case 2 => (Sunrise1, Sunrise2)
    case 3 => (Sunrise2, Sunrise3)
    case 4 => (Sunrise3, Sunrise4)
    case 5 => (Sunrise4, Sunrise5)
    case 6 => (Sunrise5, Sunrise6)
    case 7 => (Sunrise6, Sunrise7)
    case 8 => (Sunrise7, DayTimeBlue)
    case _ => (Black, Black)
  }

  /** The (current, next) colours of a sunset section; any other section keeps the initial Black, Black. */
  function SunsetColours(section: int): (Color4, Color4)
  {
    match section
    case 1 => (DayTimeBlue, Sunset1)
    case 2 => (Sunset1, Sunset2)
    case 3 => (Sunset2, Sunset3)
    case 4 => (Sunset3, Sunset4)
    case 5 => (Sunset4, Sunset5)
    case 6 => (Sunset5, Sunset6)
    case 7 => (Sunset6, Sunset7)
    case 8 => (Sunset7, Black)
    case _ => (Black, Black)
  }

  /** `((next - current) * weight) + current`. */
  function Blend(current: Color4, next: Color4, weight: real): Color4
  {
    Add(Scale(Sub(next, current), weight), current)
  }

  predicate Between(v: real, x: real, y: real)
  {
    (x <= v <= y) || (y <= v <= x)
  }

  /** Every component of the blend lies between the two colours' components. */
  lemma BlendIsConvex(current: Color4, next: Color4, weight: real)
    requires 0.0 <= weight <= 1.0
    ensures var h := Blend(current, next, weight);
      && Between(h.r, current.r, next.r) && Between(h.g, current.g, next.g)
      && Between(h.b, current.b, next.b) && Between(h.a, current.a, next.a)
  {
    var h := Blend(current, next, weight);
    BetweenOne(current.r, next.r, weight);
    BetweenOne(current.g, next.g, weight);
    BetweenOne(current.b, next.b, weight);
    BetweenOne(current.a, next.a, weight);
  }

  lemma BetweenOne(x: real, y: real, w: real)
    requires 0.0 <= w <= 1.0
    ensures Between((y - x) * w + x, x, y)
  {
    if x <= y {
      assert (y - x) * w <= (y - x) * 1.0;
    } else {
      assert (x - y) * w <= (x - y) * 1.0;
    }
  }

  /** The lighting `UpdateSunrise` writes for a sunrise fraction. */
  function SunriseLighting(fraction: real): Lighting
  {
    var colours := SunriseColours(SectionOf(fraction));
    Lighting(Scale(White, fraction),
             Blend(colours.0, colours.1, WeightOf(fraction)),
             Scale(DayTimeBlue, fraction),
             Clamp(fraction, 0.015, 1.0))
  }

  /** The lighting `UpdateSunset` writes for a sunset fraction: sky and ambient fade with 1 - fraction. */
  function SunsetLighting(fraction: real): Lighting
  {
    var colours := SunsetColours(SectionOf(fraction));
    Lighting(Scale(White, 1.0 - fraction),
             Blend(colours.0, colours.1, WeightOf(fraction)),
             Scale(DayTimeBlue, 1.0 - fraction),
             Clamp(1.0 - fraction, 0.015, 1.0))
  }

  /** The lighting of the middle of the day. */
  const Daylight: Lighting := Lighting(White, DayTimeBlue, DayTimeBlue, 1.0)

  /**
   * What `UpdateSun` leaves: with the time in the first half of the day it picks
   * sunrise, daylight or sunset by the fraction of that half; otherwise nothing changes.
   */
  function SunLighting(time: real, previous: Lighting): Lighting
  {
    if time < LengthOfDay / 2.0 then
      var fraction := time / (LengthOfDay / 2.0);
      if fraction <= 0.25 then SunriseLighting(fraction * 4.0)
      else if fraction < 0.75 then Daylight
      else SunsetLighting((fraction - 0.75) * 4.0)
    else previous
  }

  /** The cloud brightness is within [0.015, 1] after every sun update. */
  lemma CloudBrightnessBounded(time: real, previous: Lighting)
    requires 0.015 <= previous.cloudBrightness <= 1.0
    ensures 0.015 <= SunLighting(time, previous).cloudBrightness <= 1.0
  {
  }

  /** Sky and ambient grow with the sunrise fraction: blue scaled by it, white scaled by it. */
  lemma SunriseSkyAndAmbient(fraction: real)
    ensures SunriseLighting(fraction).sky.b == 0.66 * fraction
    ensures SunriseLighting(fraction).ambient == Color4(fraction, fraction, fraction, fraction)
    ensures SunsetLighting(fraction).ambient == Color4(1.0 - fraction, 1.0 - fraction, 1.0 - fraction, 1.0 - fraction)
  {
  }

  /** The sunrise starts from a black horizon. */
  lemma SunriseStartsBlack()
    ensures SunriseLighting(0.0).horizon == Black
  {
    assert SectionOf(0.0) == 1;
    assert LeftoverOf(0.0) == 0.0;
    assert WeightOf(0.0) == 0.0;
    assert SunriseColours(1).0 == Black;
  }

  /**
   * At the very end of the sunrise (fraction 1, exactly a quarter of the half
   * day) the loop reaches section 9, which no case handles, so the horizon is
   * Black rather than DayTimeBlue.
   */
  lemma SunriseEndsBlack()
    ensures SunriseLighting(1.0).horizon == Black
  {
    SectionRange(1.0);
    BlackBeyondSections(1.0);
  }

  lemma BlackBeyondSections(fraction: real)
    requires SectionOf(fraction) == 9
    ensures SunriseLighting(fraction).horizon == Black
  {
    assert SunriseColours(9) == (Black, Black);
  }

  lemma SunriseEndsBlackInTheDay()
    ensures SunLighting(LengthOfDay / 8.0, Daylight).horizon == Black
  {
    assert LengthOfDay / 8.0 / (LengthOfDay / 2.0) * 4.0 == 1.0;
    SunriseEndsBlack();
  }

  /** Every sunset argument `UpdateSun` passes is below 1, so the horizon blends two listed sunset colours. */
  lemma SunsetHorizonIsConvex(time: real)
    requires 0.75 * (LengthOfDay / 2.0) < time < LengthOfDay / 2.0
    ensures var fraction := (time / (LengthOfDay / 2.0) - 0.75) * 4.0;
      && 1 <= SectionOf(fraction) <= 8
      && var h := SunLighting(time, Daylight).horizon;
      var colours := SunsetColours(SectionOf(fraction));
      && Between(h.r, colours.0.r, colours.1.r) && Between(h.g, colours.0.g, colours.1.g)
      && Between(h.b, colours.0.b, colours.1.b) && Between(h.a, colours.0.a, colours.1.a)
  {
    var fraction := (time / (LengthOfDay / 2.0) - 0.75) * 4.0;
    assert 0.0 < fraction < 1.0;
    SectionRange(fraction);
    WeightInUnitInterval(fraction);
    var colours := SunsetColours(SectionOf(fraction));
    BlendIsConvex(colours.0, colours.1, WeightOf(fraction));
  }

  /** During the sunrise part of the day the horizon blends the two colours of its section. */
  lemma SunriseHorizonIsConvex(time: real)
    requires 0.0 <= time <= 0.25 * (LengthOfDay / 2.0)
    ensures var fraction := time / (LengthOfDay / 2.0) * 4.0;
      && 1 <= SectionOf(fraction) <= 9
      && var h := SunLighting(time, Daylight).horizon;
      var colours := SunriseColours(SectionOf(fraction));
      && Between(h.r, colours.0.r, colours.1.r) && Between(h.g, colours.0.g, colours.1.g)
      && Between(h.b, colours.0.b, colours.1.b) && Between(h.a, colours.0.a, colours.1.a)
  {
    var fraction := time / (LengthOfDay / 2.0) * 4.0;
    assert 0.0 <= fraction <= 1.0;
    SectionRange(fraction);
    WeightInUnitInterval(fraction);
    var colours := SunriseColours(SectionOf(fraction));
    BlendIsConvex(colours.0, colours.1, WeightOf(fraction));
  }

  /** The static class `TimeOfDay` as one object holding its five static fields. */
  class TimeOfDay {
    var currentTime: real
    var ambientColour: Color4
    var horizonColour: Color4
    var skyColour: Color4
    var cloudBrightness: real

    function Current(): Lighting
      reads this
    {
      Lighting(ambientColour, horizonColour, skyColour, cloudBrightness)
    }

    /** The static initial state: time 0 and all-zero colours. */
    constructor ()
      ensures currentTime == 0.0 && cloudBrightness == 0.0
      ensures ambientColour == horizonColour == skyColour == Color4(0.0, 0.0, 0.0, 0.0)
    {
      currentTime := 0.0;
      ambientColour, horizonColour, skyColour := Color4(0.0, 0.0, 0.0, 0.0), Color4(0.0, 0.0, 0.0, 0.0), Color4(0.0, 0.0, 0.0, 0.0);
      cloudBrightness := 0.0;
    }

    method Frame(frameTime: real)
      modifies this
      ensures currentTime == AdvanceClock(old(currentTime), frameTime)
      ensures Current() == SunLighting(currentTime, old(Current()))
    {
      currentTime := currentTime + frameTime;
      if currentTime > LengthOfDay {
        currentTime := currentTime - LengthOfDay;
      }
      UpdateSun();
    }

    method UpdateSun()
      modifies this
      ensures currentTime == old(currentTime)
      ensures Current() == SunLighting(currentTime, old(Current()))
    {
      if currentTime < LengthOfDay / 2.0 {
        var fractionOfDay := currentTime / (LengthOfDay / 2.0);
        if fractionOfDay <= 0.25 {
          UpdateSunrise(fractionOfDay * 4.0);
        } else if fractionOfDay < 0.75 {
          ambientColour := White;
          horizonColour := DayTimeBlue;
          skyColour := DayTimeBlue;
          cloudBrightness := 1.0;
        } else {
          UpdateSunset((fractionOfDay - 0.75) * 4.0);
        }
      }
    }

    method UpdateSunrise(fractionOfSunrise: real)
      modifies this
      ensures currentTime == old(currentTime)
      ensures Current() == SunriseLighting(fractionOfSunrise)
    {
      var section, temp := CountSections(fractionOfSunrise);
      var fractionOfSection := temp / SectionWidth;
      var colours := SunriseColours(section);
      horizonColour := Add(Scale(Sub(colours.1, colours.0), fractionOfSection), colours.0);
      skyColour := Scale(DayTimeBlue, fractionOfSunrise);
      ambientColour := Scale(White, fractionOfSunrise);
      cloudBrightness := Clamp(fractionOfSunrise, 0.015, 1.0);
    }

    method UpdateSunset(fractionOfSunset: real)
      modifies this
      ensures currentTime == old(currentTime)
      ensures Current() == SunsetLighting(fractionOfSunset)
    {
      var section, temp := CountSections(fractionOfSunset);
      var fractionOfSection := temp / SectionWidth;
      var colours := SunsetColours(section);
      horizonColour := Add(Scale(Sub(colours.1, colours.0), fractionOfSection), colours.0);
      skyColour := Scale(DayTimeBlue, 1.0 - fractionOfSunset);
      ambientColour := Scale(White, 1.0 - fractionOfSunset);
      cloudBrightness := Clamp(1.0 - fractionOfSunset, 0.015, 1.0);
    }
  }
}
