/** The radial AQI gauge: the severity colour table with its lookup, the
    fraction of the 270-degree sweep the value arc covers, and the drawing
    sequence of one render. */
module AqiGauge {
  import opened Bands
  import opened Numerals
  import opened Canvas

  datatype Level = Level(max: int, color: string)

  /** US EPA AQI breakpoints, ascending by inclusive upper bound, with the
      colour of each band. */
  const AqiLevels: seq<Level> := [
    Level(50, "#4ade80"),   // Good
    Level(100, "#fde047"),  // Moderate
    Level(150, "#fbbf24"),  // Unhealthy for Sensitive Groups
    Level(200, "#f87171"),  // Unhealthy
    Level(300, "#a78bfa"),  // Very Unhealthy
    Level(500, "#a16207")   // Hazardous, also every value above 500
  ]

  const LevelBounds: seq<int> := Bounds(AqiLevels, (l: Level) => l.max)

  lemma LevelBoundsIncreasing()
    ensures |LevelBounds| == 6 && StrictlyIncreasing(LevelBounds)
  {
  }

  /** The colour of the first level whose bound is at least v. */
  function AqiColor(v: real): string {
    AqiLevels[FirstBandIndex(LevelBounds, v)].color
  }

  /** getAqiColor: scan the levels in order and return on the first match. */
  method GetAqiColor(aqi: real) returns (color: string)
    ensures color == AqiColor(aqi)
  {
    LevelBoundsIncreasing();
    for i := 0 to |AqiLevels|
      invariant forall j | 0 <= j < i :: (AqiLevels[j].max as real) < aqi
    {
      if aqi <= AqiLevels[i].max as real {
        BandCharacterization(LevelBounds, aqi, i);
        return AqiLevels[i].color;
      }
    }
    BandCharacterization(LevelBounds, aqi, |AqiLevels| - 1);
    return AqiLevels[|AqiLevels| - 1].color;
  }

  /** A value above the previous level's bound and at or below level i's
      bound gets level i's colour; a boundary value takes the lower band. */
  lemma AqiColorInBand(v: real, i: nat)
    requires i < |AqiLevels|
    requires i == 0 || (AqiLevels[i - 1].max as real) < v
    requires v <= AqiLevels[i].max as real || i == |AqiLevels| - 1
    ensures AqiColor(v) == AqiLevels[i].color
  {
    LevelBoundsIncreasing();
    BandCharacterization(LevelBounds, v, i);
  }

  /** Every value above 500 gets the Hazardous colour. */
  lemma AqiColorOverflow(v: real)
    requires v > 500.0
    ensures AqiColor(v) == "#a16207"
  {
    AqiColorInBand(v, 5);
  }

  // Angles are measured in units of pi radians: the sweep runs from 0.75 pi
  // to 2.25 pi, leaving a 90-degree gap at the bottom.
  const StartAngle: real := 0.75
  const EndAngle: real := 2.25

  const DefaultMin: real := 0.0
  const DefaultMax: real := 500.0

  const TrackStyle := "#e5e7eb"
  const CaptionStyle := "#6b7280"

  function MaxReal(a: real, b: real): real { if a >= b then a else b }
  function MinReal(a: real, b: real): real { if a <= b then a else b }

  /** x limited to [lo, hi]. */
  function Clamp(x: real, lo: real, hi: real): (c: real)
    requires lo <= hi
    ensures lo <= c <= hi
    ensures lo <= x <= hi ==> c == x
    ensures x < lo ==> c == lo
    ensures x > hi ==> c == hi
  {
    if x < lo then lo else if x > hi then hi else x
  }

  /** Scaling by a positive factor keeps the sign. */
  lemma ScaleSign(x: real, r: real)
    requires r > 0.0
    ensures x * r > 0.0 <==> x > 0.0
    ensures x * r < 0.0 <==> x < 0.0
  {
    if x > 0.0 {
      assert x * r > 0.0;
    } else if x < 0.0 {
      assert x * r < 0.0;
    }
  }

  /** Dividing by a positive range and multiplying back is exact, and the
      quotient leaves [0, 1] exactly when the dividend leaves [0, range]. */
  lemma QuotientFacts(a: real, range: real)
    requires range > 0.0
    ensures (a / range) * range == a
    ensures a / range < 0.0 <==> a < 0.0
    ensures a / range > 1.0 <==> a > range
    ensures a / range >= 1.0 <==> a >= range
  {
    var q := a / range;
    assert q * range == a;
    assert a == range ==> q == 1.0;
    ScaleSign(q, range);
    assert (q - 1.0) * range == a - range;
    ScaleSign(q - 1.0, range);
  }

  /** Division by a positive range preserves order. */
  lemma QuotientMonotone(a: real, b: real, range: real)
    requires range > 0.0 && a <= b
    ensures a / range <= b / range
  {
    var qa, qb := a / range, b / range;
    QuotientFacts(a, range);
    QuotientFacts(b, range);
    var d := qb - qa;
    assert d * range == b - a;
    ScaleSign(d, range);
    assert d >= 0.0;
  }

  /** Math.max(0, Math.min(1, (value - min) / range)): the fraction of the
      sweep at which the clamped value sits. */
  function Percent(value: real, min: real, max: real): (p: real)
    requires max > min
    ensures 0.0 <= p <= 1.0
    ensures value <= min ==> p == 0.0
    ensures value >= max ==> p == 1.0
    ensures min < value < max ==> 0.0 < p < 1.0
    ensures min + p * (max - min) == Clamp(value, min, max)
  {
    var range := max - min;
    var q := (value - min) / range;
    QuotientFacts(value - min, range);
    MaxReal(0.0, MinReal(1.0, q))
  }

  /** The end angle of the value arc. */
  function Angle(value: real, min: real, max: real): (a: real)
    requires max > min
    ensures StartAngle <= a <= EndAngle
  {
    StartAngle + (EndAngle - StartAngle) * Percent(value, min, max)
  }

  lemma AnglePosition(value: real, min: real, max: real)
    requires max > min
    ensures value <= min ==> Angle(value, min, max) == StartAngle
    ensures value >= max ==> Angle(value, min, max) == EndAngle
    ensures min < value < max ==> StartAngle < Angle(value, min, max) < EndAngle
  {
  }

  /** A larger value never draws a shorter arc. */
  lemma AngleMonotone(v: real, w: real, min: real, max: real)
    requires max > min && v <= w
    ensures Angle(v, min, max) <= Angle(w, min, max)
  {
    QuotientMonotone(v - min, w - min, max - min);
  }

  /** With the default range 0..500, a value of 250 sits at the middle of
      the sweep. */
  lemma MidpointAtDefaults()
    ensures Percent(250.0, DefaultMin, DefaultMax) == 0.5
    ensures Angle(250.0, DefaultMin, DefaultMax) == (StartAngle + EndAngle) / 2.0
  {
  }

  /** What one render of the gauge leaves on the surface: the cleared
      canvas, the grey track over the full sweep, the value arc and the
      value label in the severity colour of the raw value, the caption. */
  function GaugeOps(value: real, min: real, max: real): seq<Op>
    requires max > min
  {
    var color := AqiColor(value);
    [ ClearRect,
      StrokeArc(StartAngle, EndAngle, TrackStyle),
      StrokeArc(StartAngle, Angle(value, min, max), color),
      FillText(IntToString(Round(value)), color, Center),
      FillText("AQI", CaptionStyle, Center) ]
  }

  /** The gauge effect. The caller supplies the device pixel ratio; the
      division by the range assumes max > min. */
  method RenderGauge(canvas: Surface, value: real, min: real, max: real, size: real, dpr: real)
    requires max > min
    modifies canvas
    ensures canvas.width == AssignedDimension(size * dpr, DefaultWidth)
    ensures canvas.height == AssignedDimension(size * dpr, DefaultHeight)
    ensures canvas.ops == GaugeOps(value, min, max)
  {
    var w := size * dpr;
    var h := size * dpr;
    canvas.Resize(w, h);
    canvas.Draw(ClearRect);
    var range := max - min;
    var percent := MaxReal(0.0, MinReal(1.0, (value - min) / range));
    var angle := StartAngle + (EndAngle - StartAngle) * percent;
    assert angle == Angle(value, min, max);
    var color := GetAqiColor(value);
    canvas.Draw(StrokeArc(StartAngle, EndAngle, TrackStyle));
    canvas.Draw(StrokeArc(StartAngle, angle, color));
    canvas.Draw(FillText(IntToString(Round(value)), color, Center));
    canvas.Draw(FillText("AQI", CaptionStyle, Center));
    assert canvas.ops == GaugeOps(value, min, max);
  }

  /** The label reads the raw value rounded, so a value beyond the range
      still shows its true magnitude while the arc stops at the end of the
      sweep. */
  lemma GaugeLabelShowsRawValue(value: real, min: real, max: real)
    requires max > min
    ensures GaugeOps(value, min, max)[3].FillText?
    ensures IsNumeral(GaugeOps(value, min, max)[3].text)
    ensures ParseNumeral(GaugeOps(value, min, max)[3].text) == Round(value)
    ensures value >= max ==> GaugeOps(value, min, max)[2].toAngle == EndAngle
    ensures value <= min ==> GaugeOps(value, min, max)[2].toAngle == StartAngle
  {
    IntToStringRoundTrip(Round(value));
    AnglePosition(value, min, max);
  }
}
