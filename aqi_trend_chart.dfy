/** The 24-hour trend chart: the padded Y range, the five Y ticks, the X
    tick labels and which of them are written, and the drawing sequence of
    one render. Samples are integers (AQI index times 50, plus an integral
    jitter), so Math.floor and Math.ceil on them are the identity. */
module AqiTrendChart {
  import opened Numerals
  import opened Canvas
  import opened AqiGauge

  /** Math.min(...data) for a non-empty series. */
  function SeqMin(s: seq<int>): (m: int)
    requires |s| > 0
    ensures m in s
    ensures forall i | 0 <= i < |s| :: m <= s[i]
    decreases |s|
  {
    if |s| == 1 then s[0]
    else
      var rest := SeqMin(s[1..]);
      if s[0] <= rest then s[0] else rest
  }

  /** Math.max(...data) for a non-empty series. */
  function SeqMax(s: seq<int>): (m: int)
    requires |s| > 0
    ensures m in s
    ensures forall i | 0 <= i < |s| :: s[i] <= m
    decreases |s|
  {
    if |s| == 1 then s[0]
    else
      var rest := SeqMax(s[1..]);
      if s[0] >= rest then s[0] else rest
  }

  datatype Scale = Scale(minY: int, maxY: int)

  /** The Y range in closed form: ten below the lowest sample but not below
      zero, five above the highest, and at least ten units tall. An empty
      series has no finite extremes and stands in for 0 and 100. */
  function AxisScale(data: seq<int>): (sc: Scale)
    ensures sc.minY >= 0 && sc.maxY - sc.minY >= 10
    ensures |data| == 0 ==> sc == Scale(0, 105)
    ensures |data| > 0 ==> SeqMax(data) + 5 <= sc.maxY
    ensures |data| > 0 && SeqMin(data) >= 0 ==> sc.minY <= SeqMin(data)
    ensures |data| > 0 && SeqMin(data) >= 0 ==>
      forall i | 0 <= i < |data| :: sc.minY <= data[i] <= sc.maxY
  {
    var lo := if |data| == 0 then 0 else SeqMin(data);
    var hi := if |data| == 0 then 100 else SeqMax(data);
    var minY := if lo - 10 > 0 then lo - 10 else 0;
    Scale(minY, if hi + 5 > minY + 10 then hi + 5 else minY + 10)
  }

  /** The chart's range computation, reassigning minY and maxY in steps. */
  method AxisRange(data: seq<int>) returns (minY: int, maxY: int)
    ensures Scale(minY, maxY) == AxisScale(data)
  {
    if |data| == 0 {
      // Math.min() and Math.max() of nothing are not finite
      minY, maxY := 0, 100;
    } else {
      minY, maxY := SeqMin(data), SeqMax(data);
    }
    minY := if minY - 10 > 0 then minY - 10 else 0;
    maxY := maxY + 5;
    if maxY - minY < 10 {
      maxY := minY + 10;
    }
  }

  /** Y tick i of five: Math.round(minY + (yRange * i) / 4). */
  function YTickValue(minY: int, maxY: int, i: nat): int {
    Round(minY as real + ((maxY - minY) * i) as real / 4.0)
  }

  function YTickValues(minY: int, maxY: int): seq<int> {
    seq(5, i requires 0 <= i < 5 => YTickValue(minY, maxY, i))
  }

  /** Rounding a quarter of an integer is integer division after adding 2. */
  lemma YTickClosedForm(minY: int, maxY: int, i: nat)
    ensures YTickValue(minY, maxY, i) == minY + ((maxY - minY) * i + 2) / 4
  {
    var a := (maxY - minY) * i;
    var q := (a + 2) / 4;
    var r := (a + 2) % 4;
    assert a + 2 == 4 * q + r && 0 <= r < 4;
    var x := minY as real + a as real / 4.0;
    assert x == (minY + q) as real + (r as real - 2.0) / 4.0;
    RoundIsNearest(x, minY + q);
  }

  /** The five ticks in closed form: the ends and the three rounded
      quarter points between them. */
  lemma YTickList(minY: int, maxY: int)
    ensures var d := maxY - minY;
      YTickValues(minY, maxY)
        == [minY, minY + (d + 2) / 4, minY + (2 * d + 2) / 4, minY + (3 * d + 2) / 4, maxY]
  {
    var d := maxY - minY;
    YTickClosedForm(minY, maxY, 0);
    YTickClosedForm(minY, maxY, 1);
    YTickClosedForm(minY, maxY, 2);
    YTickClosedForm(minY, maxY, 3);
    YTickClosedForm(minY, maxY, 4);
    assert (d * 4 + 2) / 4 == d;
  }

  /** The first tick is minY, the last is maxY, and over a range of at least
      four units the ticks strictly increase, so no two labels repeat. */
  lemma YTicksSpan(minY: int, maxY: int)
    ensures YTickValues(minY, maxY)[0] == minY
    ensures YTickValues(minY, maxY)[4] == maxY
    ensures minY <= maxY ==> forall i, j | 0 <= i < j < 5 ::
      YTickValues(minY, maxY)[i] <= YTickValues(minY, maxY)[j]
    ensures maxY - minY >= 4 ==> forall i, j | 0 <= i < j < 5 ::
      YTickValues(minY, maxY)[i] < YTickValues(minY, maxY)[j]
  {
    YTickList(minY, maxY);
  }

  /** The Y tick loop: five pushes of the rounded quarter points. */
  method YTicks(minY: int, maxY: int) returns (ticks: seq<int>)
    ensures ticks == YTickValues(minY, maxY)
    ensures ticks[0] == minY && ticks[4] == maxY
    ensures minY <= maxY ==> forall i, j | 0 <= i < j < 5 :: ticks[i] <= ticks[j]
  {
    var yRange := maxY - minY;
    ticks := [];
    for i := 0 to 5
      invariant |ticks| == i
      invariant forall j | 0 <= j < i :: ticks[j] == YTickValue(minY, maxY, j)
    {
      ticks := ticks + [Round(minY as real + (yRange * i) as real / 4.0)];
    }
    YTicksSpan(minY, maxY);
  }

  /** "Now" for the current hour, "+{i}h" for i hours ahead. */
  function XTickLabel(i: nat): string {
    if i == 0 then "Now" else "+" + NatToString(i) + "h"
  }

  /** One label per sample, and none at all for fewer than two samples. */
  function XTickLabels(n: nat): (labels: seq<string>)
    ensures |labels| == if n > 1 then n else 0
  {
    if n > 1 then seq(n, i requires 0 <= i < n => XTickLabel(i)) else []
  }

  predicate IsHourLabel(name: string) {
    |name| >= 3 && name[0] == '+' && name[|name| - 1] == 'h' && IsDigits(name[1..|name| - 1])
  }

  /** The hour that an "+{i}h" label stands for. */
  function LabelHour(name: string): nat
    requires IsHourLabel(name)
  {
    DigitsValue(name[1..|name| - 1])
  }

  /** Label 0 is "Now"; every other label reads back as its own index. */
  lemma XTickLabelRoundTrip(n: nat, i: nat)
    requires 1 < n && i < n
    ensures i == 0 ==> XTickLabels(n)[i] == "Now"
    ensures i > 0 ==> IsHourLabel(XTickLabels(n)[i]) && LabelHour(XTickLabels(n)[i]) == i
  {
    if i > 0 {
      var name := XTickLabels(n)[i];
      assert name[1..|name| - 1] == NatToString(i);
      NatToStringRoundTrip(i);
    }
  }

  lemma XTickLabelsDistinct(n: nat, i: nat, j: nat)
    requires 1 < n && i < n && j < n && i != j
    ensures XTickLabels(n)[i] != XTickLabels(n)[j]
  {
    XTickLabelRoundTrip(n, i);
    XTickLabelRoundTrip(n, j);
  }

  /** Math.ceil(n / 6): the spacing of written X labels. */
  function LabelStep(n: nat): (k: nat)
    ensures n > 0 ==> k >= 1 && 6 * (k - 1) < n <= 6 * k
  {
    (n + 5) / 6
  }

  /** Tick i of n is written when it falls on the spacing, or is the
      first or the last. */
  predicate ShowsXLabel(n: nat, i: nat)
    requires n > 1
  {
    i % LabelStep(n) == 0 || i == n - 1 || i == 0
  }

  /** Apart from the last tick, written labels sit at multiples of the
      spacing, at most the fifth: at most seven labels are written. */
  lemma WrittenLabelsAreSpaced(n: nat, i: nat)
    requires 1 < n && i < n - 1 && ShowsXLabel(n, i)
    ensures i % LabelStep(n) == 0 && i / LabelStep(n) <= 5
  {
    var k := LabelStep(n);
    assert i == k * (i / k) + i % k;
  }

  /** The first and last ticks are always written, and every tick lies less
      than one spacing after a written one. */
  lemma WrittenLabelsCoverAxis(n: nat, i: nat)
    requires 1 < n && i < n
    ensures ShowsXLabel(n, 0) && ShowsXLabel(n, n - 1)
    ensures i - LabelStep(n) < i - i % LabelStep(n) <= i && ShowsXLabel(n, i - i % LabelStep(n))
  {
    var k := LabelStep(n);
    var m := i / k;
    assert i - i % k == k * m;
    DivModUnique(k * m, k, m, 0);
  }

  lemma ProductNonNegative(a: int, b: int)
    requires a >= 0 && b >= 0
    ensures a * b >= 0
  {
  }

  /** Euclidean division is unique: j = k * q + r with 0 <= r < k fixes
      the quotient and the remainder. */
  lemma DivModUnique(j: int, k: int, q: int, r: int)
    requires k > 0 && 0 <= r < k && j == k * q + r
    ensures j % k == r && j / k == q
  {
    var q', r' := j / k, j % k;
    assert k * (q - q') == r' - r;
    if q > q' {
      ProductNonNegative(k, q - q' - 1);
      assert false;
    } else if q < q' {
      ProductNonNegative(k, q' - q - 1);
      assert false;
    }
  }

  const AxisStyle := "#d1d5db"
  const TickTextStyle := "#6b7280"
  const PlaceholderStyle := "#9ca3af"
  const AreaStyle := "rgba(59,130,246,0.12)"
  const LineStyle := "#2563eb"
  const AxisLabelStyle := "#374151"

  const Placeholder := FillText("No AQI trend data", PlaceholderStyle, Center)

  /** A frame or name operation: what the axes part of the chart issues. */
  predicate IsFrameOp(op: Op) {
    op.ClearRect? || op.StrokeMark? || (op.FillText? && op.style == TickTextStyle)
  }

  predicate IsPlotOp(op: Op) {
    op.FillArea? || op.StrokePolyline? || op.FillDot?
  }

  predicate AllFrame(ops: seq<Op>) {
    forall k | 0 <= k < |ops| :: IsFrameOp(ops[k])
  }

  lemma FrameAppend(a: seq<Op>, b: seq<Op>)
    requires AllFrame(a) && AllFrame(b)
    ensures AllFrame(a + b)
  {
    assert forall k | |a| <= k < |a + b| :: (a + b)[k] == b[k - |a|];
  }

  /** Each Y tick: its mark, then its value as text. */
  function YTickOps(ticks: seq<int>): (ops: seq<Op>)
    ensures |ops| == 2 * |ticks|
    ensures AllFrame(ops)
    decreases |ticks|
  {
    if ticks == [] then []
    else
      var t := ticks[|ticks| - 1];
      var step := [StrokeMark(YTickMark(t), AxisStyle), FillText(IntToString(t), TickTextStyle, Right)];
      FrameAppend(YTickOps(ticks[..|ticks| - 1]), step);
      YTickOps(ticks[..|ticks| - 1]) + step
  }

  function XTickStep(labels: seq<string>, i: nat): (ops: seq<Op>)
    requires 1 < |labels| && i < |labels|
    ensures AllFrame(ops)
  {
    [StrokeMark(XTickMark(i), AxisStyle)]
      + if ShowsXLabel(|labels|, i) then [FillText(labels[i], TickTextStyle, Center)] else []
  }

  /** The X tick marks for indices below m, each with its name when written. */
  function XTickOps(labels: seq<string>, m: nat): (ops: seq<Op>)
    requires 1 < |labels| && m <= |labels|
    ensures AllFrame(ops)
  {
    if m == 0 then []
    else
      FrameAppend(XTickOps(labels, m - 1), XTickStep(labels, m - 1));
      XTickOps(labels, m - 1) + XTickStep(labels, m - 1)
  }

  /** The style of dot i: the first dot is drawn in `first`, the severity
      colour of the first sample, the others in the line colour. */
  function DotStyle(first: string, i: nat): string {
    if i == 0 then first else LineStyle
  }

  /** The marker dots of the samples below m. */
  function DotOps(data: seq<int>, m: nat, first: string): (ops: seq<Op>)
    requires m <= |data|
    ensures |ops| == m
  {
    if m == 0 then [] else DotOps(data, m - 1, first) + [FillDot(m - 1, data[m - 1], DotStyle(first, m - 1))]
  }

  /** Dot i of the first m is sample i's dot, in the first colour for
      sample 0 and the line colour after it. */
  lemma {:induction false} DotOpsAt(data: seq<int>, m: nat, first: string)
    requires m <= |data|
    ensures forall i | 0 <= i < m :: DotOps(data, m, first)[i] == FillDot(i, data[i], DotStyle(first, i))
  {
    if m > 0 {
      DotOpsAt(data, m - 1, first);
      var prev := DotOps(data, m - 1, first);
      assert DotOps(data, m, first) == prev + [FillDot(m - 1, data[m - 1], DotStyle(first, m - 1))];
    }
  }

  /** One more sample adds its dot at the end. */
  lemma DotOpsExtend(data: seq<int>, i: nat, first: string)
    requires i < |data|
    ensures DotOps(data, i + 1, first) == DotOps(data, i, first) + [FillDot(i, data[i], DotStyle(first, i))]
  {
  }

  /** The colour of the first dot, shared with the gauge. */
  function FirstDotStyle(data: seq<int>): string
    requires |data| > 0
  {
    AqiColor(data[0] as real)
  }

  /** Min, Last and Max beneath the plot, left, centre and right. */
  function SummaryOps(data: seq<int>): (ops: seq<Op>)
    requires |data| > 0
    ensures |ops| == 3 && AllFrame(ops)
  {
    [ FillText("Min: " + IntToString(SeqMin(data)), TickTextStyle, Left),
      FillText("Last: " + IntToString(data[|data| - 1]), TickTextStyle, Center),
      FillText("Max: " + IntToString(SeqMax(data)), TickTextStyle, Right) ]
  }

  /** Everything drawn before the empty-data check: the clear, both axes,
      the Y ticks and, for two or more samples, the X ticks. */
  function AxesOps(data: seq<int>): (ops: seq<Op>)
    ensures AllFrame(ops)
  {
    var sc := AxisScale(data);
    var yOps := YTickOps(YTickValues(sc.minY, sc.maxY));
    var xOps := if |data| > 1 then XTickOps(XTickLabels(|data|), |data|) else [];
    FrameAppend([ClearRect, StrokeMark(YAxisLine, AxisStyle)], yOps);
    FrameAppend([ClearRect, StrokeMark(YAxisLine, AxisStyle)] + yOps, [StrokeMark(XAxisLine, AxisStyle)]);
    FrameAppend([ClearRect, StrokeMark(YAxisLine, AxisStyle)] + yOps + [StrokeMark(XAxisLine, AxisStyle)], xOps);
    [ClearRect, StrokeMark(YAxisLine, AxisStyle)] + yOps + [StrokeMark(XAxisLine, AxisStyle)] + xOps
  }

  /** The area, the line, the dots (the first in colour `first`), the
      summary and the axis caption. */
  function PlotOps(data: seq<int>, first: string): seq<Op>
    requires |data| > 0
  {
    [FillArea(data, AreaStyle), StrokePolyline(data, LineStyle)]
      + DotOps(data, |data|, first)
      + SummaryOps(data)
      + [FillText("AQI", AxisLabelStyle, Center)]
  }

  /** What one render of the chart leaves on the surface. */
  function TrendOps(data: seq<int>): seq<Op> {
    AxesOps(data) + if |data| == 0 then [Placeholder] else PlotOps(data, FirstDotStyle(data))
  }

  /** The Y tick loop of the chart: a mark and a text per tick. */
  method DrawYTicks(canvas: Surface, ticks: seq<int>)
    modifies canvas`ops
    ensures canvas.ops == old(canvas.ops) + YTickOps(ticks)
  {
    ghost var prefix := canvas.ops;
    for i := 0 to |ticks|
      invariant canvas.ops == prefix + YTickOps(ticks[..i])
    {
      canvas.Draw(StrokeMark(YTickMark(ticks[i]), AxisStyle));
      canvas.Draw(FillText(IntToString(ticks[i]), TickTextStyle, Right));
      assert ticks[..i + 1][..i] == ticks[..i];
    }
    assert ticks[..|ticks|] == ticks;
  }

  /** The X tick loop of the chart: a mark per tick and the written labels. */
  method DrawXTicks(canvas: Surface, labels: seq<string>)
    requires 1 < |labels|
    modifies canvas`ops
    ensures canvas.ops == old(canvas.ops) + XTickOps(labels, |labels|)
  {
    var n := |labels|;
    ghost var prefix := canvas.ops;
    for i := 0 to n
      invariant canvas.ops == prefix + XTickOps(labels, i)
    {
      canvas.Draw(StrokeMark(XTickMark(i), AxisStyle));
      if i % LabelStep(n) == 0 || i == n - 1 || i == 0 {
        canvas.Draw(FillText(labels[i], TickTextStyle, Center));
      }
    }
  }

  /** The point loop of the chart: one dot per sample. */
  method DrawDots(canvas: Surface, data: seq<int>)
    requires |data| > 0
    modifies canvas`ops
    ensures canvas.ops == old(canvas.ops) + DotOps(data, |data|, FirstDotStyle(data))
  {
    ghost var prefix := canvas.ops;
    ghost var first := FirstDotStyle(data);
    for i := 0 to |data|
      invariant canvas.ops == prefix + DotOps(data, i, first)
    {
      var style;
      if i == 0 {
        style := GetAqiColor(data[i] as real);
      } else {
        style := LineStyle;
      }
      assert style == DotStyle(first, i);
      canvas.Draw(FillDot(i, data[i], style));
      DotOpsExtend(data, i, first);
    }
  }

  /** The part of the chart effect before the empty-data check: clear, the
      range and ticks, both axes with their ticks and labels. */
  method DrawFrame(canvas: Surface, data: seq<int>)
    modifies canvas`ops
    ensures canvas.ops == old(canvas.ops) + AxesOps(data)
  {
    ghost var start := canvas.ops;
    canvas.Draw(ClearRect);
    var minY, maxY := AxisRange(data);
    var yTicks := YTicks(minY, maxY);
    var n := |data|;
    var xTicks := XTickLabels(n);

    canvas.Draw(StrokeMark(YAxisLine, AxisStyle));
    ghost var head := [ClearRect, StrokeMark(YAxisLine, AxisStyle)];
    assert canvas.ops == start + head;
    DrawYTicks(canvas, yTicks);
    canvas.Draw(StrokeMark(XAxisLine, AxisStyle));
    ghost var xOps: seq<Op> := [];
    if n > 1 {
      DrawXTicks(canvas, xTicks);
      xOps := XTickOps(xTicks, n);
    }
    AppendInParts(start, head, YTickOps(yTicks), [StrokeMark(XAxisLine, AxisStyle)], xOps);
  }

  /** The Min, Last and Max labels. */
  method DrawSummary(canvas: Surface, data: seq<int>)
    requires |data| > 0
    modifies canvas`ops
    ensures canvas.ops == old(canvas.ops) + SummaryOps(data)
  {
    var n := |data|;
    canvas.Draw(FillText("Min: " + IntToString(SeqMin(data)), TickTextStyle, Left));
    canvas.Draw(FillText("Last: " + IntToString(data[n - 1]), TickTextStyle, Center));
    canvas.Draw(FillText("Max: " + IntToString(SeqMax(data)), TickTextStyle, Right));
  }

  /** The part of the chart effect after the empty-data check. */
  method DrawPlot(canvas: Surface, data: seq<int>)
    requires |data| > 0
    modifies canvas`ops
    ensures canvas.ops == old(canvas.ops) + PlotOps(data, FirstDotStyle(data))
  {
    ghost var start := canvas.ops;
    var n := |data|;
    canvas.Draw(FillArea(data, AreaStyle));
    canvas.Draw(StrokePolyline(data, LineStyle));
    ghost var head := [FillArea(data, AreaStyle), StrokePolyline(data, LineStyle)];
    assert canvas.ops == start + head;
    DrawDots(canvas, data);
    DrawSummary(canvas, data);
    canvas.Draw(FillText("AQI", AxisLabelStyle, Center));
    AppendInParts(start, head, DotOps(data, n, FirstDotStyle(data)), SummaryOps(data),
      [FillText("AQI", AxisLabelStyle, Center)]);
  }

  /** The chart effect. The caller supplies the device pixel ratio. */
  method RenderTrend(canvas: Surface, data: seq<int>, size: real, dpr: real)
    modifies canvas
    ensures canvas.width == AssignedDimension(size * dpr, DefaultWidth)
    ensures canvas.height == AssignedDimension(size * 0.7 * dpr, DefaultHeight)
    ensures canvas.ops == TrendOps(data)
  {
    canvas.Resize(size * dpr, size * 0.7 * dpr);
    DrawFrame(canvas, data);
    assert canvas.ops == AxesOps(data);
    if |data| == 0 {
      canvas.Draw(Placeholder);
      return;
    }
    DrawPlot(canvas, data);
  }

  /** The dot operations among a sequence of operations, in order. */
  function Dots(ops: seq<Op>): (dots: seq<Op>)
    decreases |ops|
  {
    if ops == [] then []
    else Dots(ops[..|ops| - 1]) + if ops[|ops| - 1].FillDot? then [ops[|ops| - 1]] else []
  }

  lemma {:induction false} DotsAppend(a: seq<Op>, b: seq<Op>)
    ensures Dots(a + b) == Dots(a) + Dots(b)
    decreases |b|
  {
    if b != [] {
      var b' := b[..|b| - 1];
      var last := b[|b| - 1];
      var tail := if last.FillDot? then [last] else [];
      DotsAppend(a, b');
      assert (a + b)[..|a + b| - 1] == a + b';
      assert (a + b)[|a + b| - 1] == last;
      assert Dots(a + b) == Dots(a + b') + tail;
      assert Dots(b) == Dots(b') + tail;
      AppendAssoc(Dots(a), Dots(b'), tail);
    } else {
      assert a + b == a;
    }
  }

  lemma {:induction false} DotsOfNone(ops: seq<Op>)
    requires forall k | 0 <= k < |ops| :: !ops[k].FillDot?
    ensures Dots(ops) == []
    decreases |ops|
  {
    if ops != [] {
      DotsOfNone(ops[..|ops| - 1]);
    }
  }

  lemma {:induction false} DotsOfDotOps(data: seq<int>, m: nat, first: string)
    requires m <= |data|
    ensures Dots(DotOps(data, m, first)) == DotOps(data, m, first)
  {
    if m > 0 {
      var ops := DotOps(data, m, first);
      var prev := DotOps(data, m - 1, first);
      var dot := FillDot(m - 1, data[m - 1], DotStyle(first, m - 1));
      assert ops == prev + [dot];
      assert ops[..|ops| - 1] == prev;
      DotsOfDotOps(data, m - 1, first);
      assert Dots(ops) == Dots(prev) + [dot];
    }
  }

  /** With no samples the chart draws its frame and ends with the
      placeholder: no area, no line, no dots, no Min/Last/Max texts and no
      axis caption. The only other texts are the Y tick numbers. */
  lemma EmptyTrendDrawsPlaceholder()
    ensures TrendOps([])[|TrendOps([])| - 1] == Placeholder
    ensures TrendOps([])[1] == StrokeMark(YAxisLine, AxisStyle)
    ensures StrokeMark(XAxisLine, AxisStyle) in TrendOps([])
    ensures forall k | 0 <= k < |TrendOps([])| :: !IsPlotOp(TrendOps([])[k])
    ensures forall k | 0 <= k < |TrendOps([])| - 1 ::
      TrendOps([])[k].FillText? ==> IsNumeral(TrendOps([])[k].text)
    ensures forall k | 0 <= k < |TrendOps([])| :: TrendOps([])[k].FillText? ==>
      |TrendOps([])[k].text| > 0 && TrendOps([])[k].text[0] != 'M' && TrendOps([])[k].text[0] != 'L'
    ensures FillText("AQI", AxisLabelStyle, Center) !in TrendOps([])
  {
    var axes := AxesOps([]);
    assert TrendOps([]) == axes + [Placeholder];
    var yOps := YTickOps(YTickValues(0, 105));
    assert axes[2 + |yOps|] == StrokeMark(XAxisLine, AxisStyle);
    EmptyAxesTexts();
  }

  /** With no samples, every text of the frame is a Y tick number. */
  lemma EmptyAxesTexts()
    ensures NumeralTexts(AxesOps([]))
  {
    var yOps := YTickOps(YTickValues(0, 105));
    YTickOpsTexts(YTickValues(0, 105));
    NumeralTextsAppend([ClearRect, StrokeMark(YAxisLine, AxisStyle)], yOps);
    NumeralTextsAppend([ClearRect, StrokeMark(YAxisLine, AxisStyle)] + yOps, [StrokeMark(XAxisLine, AxisStyle)]);
    assert AxesOps([]) == [ClearRect, StrokeMark(YAxisLine, AxisStyle)] + yOps + [StrokeMark(XAxisLine, AxisStyle)] + [];
  }

  /** Every text among the operations is a number. */
  predicate NumeralTexts(ops: seq<Op>) {
    forall k | 0 <= k < |ops| :: ops[k].FillText? ==> IsNumeral(ops[k].text)
  }

  lemma NumeralTextsAppend(a: seq<Op>, b: seq<Op>)
    requires NumeralTexts(a) && NumeralTexts(b)
    ensures NumeralTexts(a + b)
  {
    assert forall k | |a| <= k < |a + b| :: (a + b)[k] == b[k - |a|];
  }

  /** The Y tick texts are the ticks written as numbers. */
  lemma {:induction false} YTickOpsTexts(ticks: seq<int>)
    ensures NumeralTexts(YTickOps(ticks))
    decreases |ticks|
  {
    if ticks != [] {
      var t := ticks[|ticks| - 1];
      YTickOpsTexts(ticks[..|ticks| - 1]);
      IntToStringRoundTrip(t);
      NumeralTextsAppend(YTickOps(ticks[..|ticks| - 1]),
        [StrokeMark(YTickMark(t), AxisStyle), FillText(IntToString(t), TickTextStyle, Right)]);
    }
  }

  /** The placeholder is drawn exactly when there are no samples. */
  lemma PlaceholderIffEmpty(data: seq<int>)
    ensures Placeholder in TrendOps(data) <==> |data| == 0
  {
    if |data| == 0 {
      assert TrendOps(data)[|AxesOps(data)|] == Placeholder;
    } else {
      PlaceholderNotInFrame(AxesOps(data));
      PlaceholderNotInPlot(data, FirstDotStyle(data));
    }
  }

  lemma PlaceholderNotInFrame(ops: seq<Op>)
    requires AllFrame(ops)
    ensures Placeholder !in ops
  {
    assert PlaceholderStyle[1] != TickTextStyle[1];
  }

  lemma PlaceholderNotInPlot(data: seq<int>, first: string)
    requires |data| > 0
    ensures Placeholder !in PlotOps(data, first)
  {
    var dots := DotOps(data, |data|, first);
    DotOpsAt(data, |data|, first);
    assert Placeholder !in dots;
    PlaceholderNotInSummary(data);
    PlaceholderNotCaption();
    NotInParts(Placeholder, [FillArea(data, AreaStyle), StrokePolyline(data, LineStyle)], dots,
      SummaryOps(data), [FillText("AQI", AxisLabelStyle, Center)]);
  }

  lemma PlaceholderNotInSummary(data: seq<int>)
    requires |data| > 0
    ensures Placeholder !in SummaryOps(data)
  {
    PlaceholderNotInFrame(SummaryOps(data));
  }

  lemma PlaceholderNotCaption()
    ensures Placeholder !in [FillText("AQI", AxisLabelStyle, Center)]
  {
    assert |Placeholder.text| != |"AQI"|;
  }

  /** A non-empty chart has one dot per sample, in order, at the sample's
      value; the first dot has the severity colour of the first sample and
      every other dot the line colour. */
  lemma TrendDots(data: seq<int>)
    requires |data| > 0
    ensures |Dots(TrendOps(data))| == |data|
    ensures forall i | 0 <= i < |data| ::
      Dots(TrendOps(data))[i] == FillDot(i, data[i], DotStyle(FirstDotStyle(data), i))
  {
    var axes := AxesOps(data);
    DotsOfNone(axes);
    DotsAppend(axes, PlotOps(data, FirstDotStyle(data)));
    DotsOfPlot(data, FirstDotStyle(data));
    assert Dots(TrendOps(data)) == DotOps(data, |data|, FirstDotStyle(data));
    DotOpsAt(data, |data|, FirstDotStyle(data));
  }

  /** The dots of the part drawn after the empty-data check are DotOps. */
  lemma DotsOfPlot(data: seq<int>, first: string)
    requires |data| > 0
    ensures Dots(PlotOps(data, first)) == DotOps(data, |data|, first)
  {
    var head := [FillArea(data, AreaStyle), StrokePolyline(data, LineStyle)];
    var dots := DotOps(data, |data|, first);
    var summary := SummaryOps(data);
    var caption := [FillText("AQI", AxisLabelStyle, Center)];
    NoDotsAroundCurve(data);
    DotsOfDotOps(data, |data|, first);
    DotsAppend(head, dots);
    assert Dots(head + dots) == dots;
    DotsAppend(head + dots, summary);
    assert Dots(head + dots + summary) == dots;
    DotsAppend(head + dots + summary, caption);
  }

  lemma NoDotsAroundCurve(data: seq<int>)
    requires |data| > 0
    ensures Dots([FillArea(data, AreaStyle), StrokePolyline(data, LineStyle)]) == []
    ensures Dots(SummaryOps(data)) == []
    ensures Dots([FillText("AQI", AxisLabelStyle, Center)]) == []
  {
    DotsOfNone([FillArea(data, AreaStyle), StrokePolyline(data, LineStyle)]);
    DotsOfNone(SummaryOps(data));
    DotsOfNone([FillText("AQI", AxisLabelStyle, Center)]);
  }

  /** A non-empty chart ends with the summary labels, then the axis
      caption. */
  lemma TrendSummary(data: seq<int>)
    requires |data| > 0
    ensures EndsWith(TrendOps(data), SummaryOps(data) + [FillText("AQI", AxisLabelStyle, Center)])
  {
    PlotEndsWithSummary(data, FirstDotStyle(data));
    EndsWithAppend(AxesOps(data), PlotOps(data, FirstDotStyle(data)),
      SummaryOps(data) + [FillText("AQI", AxisLabelStyle, Center)]);
  }

  lemma PlotEndsWithSummary(data: seq<int>, first: string)
    requires |data| > 0
    ensures EndsWith(PlotOps(data, first), SummaryOps(data) + [FillText("AQI", AxisLabelStyle, Center)])
  {
    var before := [FillArea(data, AreaStyle), StrokePolyline(data, LineStyle)]
      + DotOps(data, |data|, first);
    AppendAssoc(before, SummaryOps(data), [FillText("AQI", AxisLabelStyle, Center)]);
    EndsWithLastPart(before, SummaryOps(data) + [FillText("AQI", AxisLabelStyle, Center)]);
  }

  /** The summary labels read back as the true minimum, the last sample and
      the true maximum, not the padded axis bounds. */
  lemma SummaryReadsBack(data: seq<int>)
    requires |data| > 0
    ensures var ops := SummaryOps(data);
      ops[0].text[..5] == "Min: "
      && IsNumeral(ops[0].text[5..]) && ParseNumeral(ops[0].text[5..]) == SeqMin(data)
      && ops[1].text[..6] == "Last: "
      && IsNumeral(ops[1].text[6..]) && ParseNumeral(ops[1].text[6..]) == data[|data| - 1]
      && ops[2].text[..5] == "Max: "
      && IsNumeral(ops[2].text[5..]) && ParseNumeral(ops[2].text[5..]) == SeqMax(data)
  {
    LabelReadsBack("Min: ", SeqMin(data));
    LabelReadsBack("Last: ", data[|data| - 1]);
    LabelReadsBack("Max: ", SeqMax(data));
  }

  /** A caption followed by a number splits back into the two. */
  lemma LabelReadsBack(caption: string, x: int)
    ensures (caption + IntToString(x))[..|caption|] == caption
    ensures IsNumeral((caption + IntToString(x))[|caption|..])
    ensures ParseNumeral((caption + IntToString(x))[|caption|..]) == x
  {
    IntToStringRoundTrip(x);
    assert (caption + IntToString(x))[|caption|..] == IntToString(x);
  }

  predicate IsXTick(op: Op) {
    op.StrokeMark? && op.mark.XTickMark?
  }

  /** A single sample gets no X ticks at all, and one dot. */
  lemma SingleSampleTrend(v: int)
    ensures NoXTicks(TrendOps([v]))
    ensures Dots(TrendOps([v])) == [FillDot(0, v, AqiColor(v as real))]
  {
    SingleSampleNoXTicks(v);
    TrendDots([v]);
  }

  predicate NoXTicks(ops: seq<Op>) {
    forall k | 0 <= k < |ops| :: !IsXTick(ops[k])
  }

  lemma NoXTicksAppend(a: seq<Op>, b: seq<Op>)
    requires NoXTicks(a) && NoXTicks(b)
    ensures NoXTicks(a + b)
  {
    assert forall k | |a| <= k < |a + b| :: (a + b)[k] == b[k - |a|];
  }

  lemma SingleSampleNoXTicks(v: int)
    ensures NoXTicks(TrendOps([v]))
  {
    SingleSampleAxesNoXTicks(v);
    PlotHasNoMarks([v], FirstDotStyle([v]));
    NoXTicksAppend(AxesOps([v]), PlotOps([v], FirstDotStyle([v])));
  }

  lemma SingleSampleAxesNoXTicks(v: int)
    ensures NoXTicks(AxesOps([v]))
  {
    var sc := AxisScale([v]);
    var yOps := YTickOps(YTickValues(sc.minY, sc.maxY));
    YTickOpsMarks(YTickValues(sc.minY, sc.maxY));
    NoXTicksAppend([ClearRect, StrokeMark(YAxisLine, AxisStyle)], yOps);
    NoXTicksAppend([ClearRect, StrokeMark(YAxisLine, AxisStyle)] + yOps, [StrokeMark(XAxisLine, AxisStyle)]);
    assert AxesOps([v]) == [ClearRect, StrokeMark(YAxisLine, AxisStyle)] + yOps + [StrokeMark(XAxisLine, AxisStyle)] + [];
  }

  lemma PlotHasNoMarks(data: seq<int>, first: string)
    requires |data| > 0
    ensures NoMarks(PlotOps(data, first))
  {
    SummaryHasNoMarks(data);
    DotOpsAt(data, |data|, first);
    NoMarksInParts([FillArea(data, AreaStyle), StrokePolyline(data, LineStyle)],
      DotOps(data, |data|, first), SummaryOps(data), [FillText("AQI", AxisLabelStyle, Center)]);
  }

  lemma SummaryHasNoMarks(data: seq<int>)
    requires |data| > 0
    ensures NoMarks(SummaryOps(data))
  {
  }

  predicate NoMarks(ops: seq<Op>) {
    forall k | 0 <= k < |ops| :: !ops[k].StrokeMark?
  }

  lemma NoMarksInParts(a: seq<Op>, b: seq<Op>, c: seq<Op>, d: seq<Op>)
    requires NoMarks(a) && NoMarks(b) && NoMarks(c) && NoMarks(d)
    ensures NoMarks(a + b + c + d)
  {
    NoMarksAppend(a, b);
    NoMarksAppend(a + b, c);
    NoMarksAppend(a + b + c, d);
  }

  lemma NoMarksAppend(a: seq<Op>, b: seq<Op>)
    requires NoMarks(a) && NoMarks(b)
    ensures NoMarks(a + b)
  {
    assert forall k | |a| <= k < |a + b| :: (a + b)[k] == b[k - |a|];
  }

  lemma {:induction false} YTickOpsMarks(ticks: seq<int>)
    ensures NoXTicks(YTickOps(ticks))
    decreases |ticks|
  {
    if ticks != [] {
      YTickOpsMarks(ticks[..|ticks| - 1]);
    }
  }
}
