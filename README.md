# CleanAir Guardian dashboard, modelled in Dafny

CleanAir Guardian is a single-page React dashboard. It shows the air
quality index (AQI) for the visitor's position. Three pieces are modelled:

- **The dashboard component** (`src/App.jsx`). It asks the browser for a
  position. It then fetches an hourly air-pollution forecast and a
  reverse-geocoded city name from OpenWeatherMap. From the forecast it
  builds a 24-hour trend, and it classifies the current reading into a
  US EPA AQI category (Good … Hazardous). It halves its refresh rate when
  the connection is slow or saving data.
- **The radial gauge** (`src/AqiGauge.jsx`). It draws a 270-degree arc
  filled in proportion to the value and coloured by severity band, with
  the rounded value in the centre.
- **The trend chart** (`src/AqiTrendChart.jsx`). It pads the Y range,
  writes five Y ticks and thinned "Now"/"+ih" X labels, and draws the area,
  the line, one dot per hour (the first in the severity colour of the first
  sample), and the Min/Last/Max summary. For an empty series it draws a placeholder.

The project has six modules, one per file:

| module | file | contents |
|---|---|---|
| `Numerals` | `numerals.dfy` | `Math.round` and how JavaScript writes the integers this dashboard handles (below 10^21 in magnitude, so never in exponent form) as text, with a parser that reads it back |
| `Bands` | `bands.dfy` | the first-match scan over increasing inclusive upper bounds that both severity tables use |
| `Canvas` | `canvas.dfy` | a drawing surface as a class whose `ops` sequence records each drawing call with the style in effect; resizing clears it |
| `AqiGauge` | `aqi_gauge.dfy` | the colour table, `getAqiColor`, the clamped fraction and angle of the sweep, and the render method |
| `AqiTrendChart` | `aqi_trend_chart.dfy` | the axis range, the ticks and labels, and the render as methods that append to the surface, each proved equal to a specification function |
| `App` | `app.dfy` | the category table and `getAqiCategory`, the trend transformation, the component state as a class, and the fetch, geolocation and connection handlers |

Inputs stand in for everything the browser supplies: the forecast and
geocoding responses, the geolocation outcome, the connection description,
the draws of `Math.random` and the device pixel ratio. Each handler is a
method on the `Dashboard` class. Its state after the call is proved equal
to a function of its state before the call, and lemmas about that function
state what the component promises.

Three behaviours of the code are worth stating:

- An empty series gets the range 0..105. The code substitutes 0 and 100 for
  the missing extremes and then adds its 5 units of headroom.
- A single sample is not special-cased. The chart issues the area, line and
  dot calls as for any series, and `SingleSampleTrend` proves it strokes no X
  ticks. Every x coordinate computed from the index is then
  `0 * (chartW / 0)`, which is NaN. The area's own start and end use the
  finite left padding, but it encloses no width. So those calls paint
  nothing visible (see "## Left out").
- An all-equal forecast is jittered by up to 4 per entry. The first sample
  can then land in another band than the gauge's value
  (`JitterCanRecolourFirstDot`).

## Model

| member | source | states |
|---|---|---|
| Numerals.Round | src/AqiGauge.jsx:66 | Math.round returns an integer r with r - 1/2 <= x < r + 1/2 |
| Numerals.RoundIsNearest | src/AqiGauge.jsx:66 | that integer is unique, so Round is exactly Math.round on every real |
| Numerals.IntToString | src/AqiTrendChart.jsx:69 | a number's text is non-empty and starts with '-' exactly when it is negative |
| Numerals.NatToString | src/AqiTrendChart.jsx:48 | the text of a natural number is a non-empty run of digits, starting with '0' only for 0 |
| Numerals.NatToStringRoundTrip | src/AqiTrendChart.jsx:48 | the decimal digits of n read back as n |
| Numerals.IntToStringRoundTrip | src/AqiTrendChart.jsx:69 | every integer's text is a numeral that parses back to the integer |
| Numerals.IntToStringInjective | src/AqiTrendChart.jsx:69 | distinct numbers never share a label |
| Bands.Bounds | src/AqiGauge.jsx:4-11 | the bounds list of a table has one entry per row, in table order, for the levels and for the categories alike |
| Bands.FirstBandIndex | src/AqiGauge.jsx:13-17 | the chosen band is in range, every earlier bound is below v, and v is within the chosen bound unless the band is the last |
| Bands.BandCharacterization | src/AqiGauge.jsx:13-17 | over increasing bounds, band k is chosen if and only if v is above bound k-1 and at most bound k, or k is the catch-all |
| Bands.BandMonotone | src/App.jsx:148-152 | a larger value never gets an earlier band |
| Bands.BoundMonotone | src/App.jsx:148-152 | a larger value never gets a smaller bound |
| Canvas.Surface.constructor | src/AqiGauge.jsx:76-79 | a new canvas has the size of its element attributes and nothing drawn |
| Canvas.TruncateTowardZero | src/AqiGauge.jsx:30-31 | the integer part of x: at most x for x >= 0, at least x for x < 0, within 1 of it |
| Canvas.AssignedDimension | src/AqiGauge.jsx:30-31 | the stored size never exceeds 2147483647; an in-range non-negative x is stored as its integer part, and x in [-2^31, -1] gives the default |
| Canvas.ZoomedOutWidth | src/AqiGauge.jsx:30 | a 220-pixel gauge at a pixel ratio of 0.67 is 147 pixels wide |
| Canvas.Surface.Resize | src/AqiGauge.jsx:28-31 | assigning width and height stores their converted integers (300 and 150 when out of range) and discards everything drawn |
| Canvas.Surface.Draw | src/AqiGauge.jsx:48-53 | a drawing call appends exactly one operation |
| AqiGauge.LevelBoundsIncreasing | src/AqiGauge.jsx:4-11 | six levels with strictly increasing bounds |
| AqiGauge.AqiColor | src/AqiGauge.jsx:13-18 | the colour of the first level whose bound is at least v; characterised by AqiColorInBand and AqiColorOverflow |
| AqiGauge.GetAqiColor | src/AqiGauge.jsx:13-18 | the loop with early return yields the colour of the first level whose bound is at least the value, the last colour otherwise |
| AqiGauge.AqiColorInBand | src/AqiGauge.jsx:13-16 | a value in (bound i-1, bound i] gets colour i; boundary values take the lower band |
| AqiGauge.AqiColorOverflow | src/AqiGauge.jsx:17 | every value above 500 gets "#a16207" |
| AqiGauge.Clamp | src/AqiGauge.jsx:43 | the result lies in [lo, hi]; it is lo for x below lo, hi for x above hi, and x otherwise |
| AqiGauge.Percent | src/AqiGauge.jsx:42-43 | the fraction lies in [0, 1]; it is 0 at or below min and 1 at or above max, strictly between otherwise; scaled back it is the value clamped to [min, max] |
| AqiGauge.Angle | src/AqiGauge.jsx:40-44 | the value arc ends inside the sweep from 0.75 pi to 2.25 pi |
| AqiGauge.AnglePosition | src/AqiGauge.jsx:40-44 | the arc ends at the start angle for value <= min, at the end angle for value >= max, strictly between otherwise |
| AqiGauge.AngleMonotone | src/AqiGauge.jsx:42-44 | a larger value never draws a shorter arc |
| AqiGauge.MidpointAtDefaults | src/AqiGauge.jsx:20-44 | with the defaults 0 and 500, a value of 250 gives percent 0.5 and the middle of the sweep |
| AqiGauge.GaugeOps | src/AqiGauge.jsx:34-71 | the five operations one render leaves: clear, track, value arc, value label, caption; its label and arc ends are stated by GaugeLabelShowsRawValue |
| AqiGauge.RenderGauge | src/AqiGauge.jsx:23-72 | the surface has the integer the page stores for size*dpr as width and height (square, unless the integer part of size*dpr modulo 2^32 exceeds 2147483647, which gives 300 by 150; in particular square for size*dpr in [0, 2^31)), and holds the clear, the track, the value arc and label in the raw value's severity colour, and the caption |
| AqiGauge.GaugeLabelShowsRawValue | src/AqiGauge.jsx:43-66 | the centre label parses back to Math.round of the unclamped value, while the arc stops at the end of the sweep |
| AqiTrendChart.SeqMin | src/AqiTrendChart.jsx:30 | Math.min of a non-empty series is one of its samples and at most each sample |
| AqiTrendChart.SeqMax | src/AqiTrendChart.jsx:31 | Math.max of a non-empty series is one of its samples and at least each sample |
| AqiTrendChart.AxisScale | src/AqiTrendChart.jsx:29-38 | minY >= 0 and the span is at least 10; an empty series gives (0, 105); maxY is at least max + 5; for non-negative data every sample lies in [minY, maxY] |
| AqiTrendChart.AxisRange | src/AqiTrendChart.jsx:29-38 | the step-by-step reassignments of minY and maxY end at AxisScale |
| AqiTrendChart.YTickValue | src/AqiTrendChart.jsx:44 | tick i is Math.round(minY + yRange*i/4); its closed form is stated by YTickClosedForm |
| AqiTrendChart.YTickValues | src/AqiTrendChart.jsx:42-45 | the five ticks for i = 0..4; stated by YTickList and YTicksSpan |
| AqiTrendChart.YTickClosedForm | src/AqiTrendChart.jsx:44 | rounding minY + yRange*i/4 equals minY + (yRange*i + 2) div 4 |
| AqiTrendChart.YTickList | src/AqiTrendChart.jsx:42-45 | the five ticks are minY, the three rounded quarter points and maxY |
| AqiTrendChart.YTicksSpan | src/AqiTrendChart.jsx:42-45 | the first tick is minY and the last is maxY; the ticks never decrease, and strictly increase once the span is at least 4 |
| AqiTrendChart.YTicks | src/AqiTrendChart.jsx:42-45 | the push loop builds exactly the five ticks, from minY to maxY, non-decreasing |
| AqiTrendChart.XTickLabel | src/AqiTrendChart.jsx:48 | "Now" for index 0 and "+ih" after it; stated by XTickLabelRoundTrip and XTickLabelsDistinct |
| AqiTrendChart.XTickLabels | src/AqiTrendChart.jsx:48 | one label per sample for two or more samples, none otherwise |
| AqiTrendChart.XTickLabelRoundTrip | src/AqiTrendChart.jsx:48 | label 0 is "Now" and label i > 0 reads back as hour i |
| AqiTrendChart.XTickLabelsDistinct | src/AqiTrendChart.jsx:48 | no two X labels are equal |
| AqiTrendChart.LabelStep | src/AqiTrendChart.jsx:93 | Math.ceil(n/6) is the least k >= 1 with n <= 6k |
| AqiTrendChart.ShowsXLabel | src/AqiTrendChart.jsx:93 | the thinning rule: tick i is written when i is a multiple of Math.ceil(n/6), or the first or the last; stated by WrittenLabelsAreSpaced and WrittenLabelsCoverAxis |
| AqiTrendChart.WrittenLabelsAreSpaced | src/AqiTrendChart.jsx:93 | every written label but the last sits at a multiple of the step no higher than the fifth, so at most seven are written |
| AqiTrendChart.WrittenLabelsCoverAxis | src/AqiTrendChart.jsx:93 | the first and last labels are always written, and every tick lies at or less than one step after a written one |
| AqiTrendChart.YTickOps | src/AqiTrendChart.jsx:63-70 | two frame operations per tick: its mark and its value as text |
| AqiTrendChart.XTickStep | src/AqiTrendChart.jsx:87-95 | each X tick issues only frame operations: its mark and, when written, its label |
| AqiTrendChart.XTickOps | src/AqiTrendChart.jsx:85-97 | the X tick loop issues only frame operations |
| AqiTrendChart.DotOps | src/AqiTrendChart.jsx:134-147 | the dots of the first m samples, one per sample; their contents are stated by DotOpsAt |
| AqiTrendChart.FirstDotStyle | src/AqiTrendChart.jsx:141-142 | the first dot takes getAqiColor of the first sample; stated by TrendDots and TrendStartsAtGauge |
| AqiTrendChart.DotOpsAt | src/AqiTrendChart.jsx:134-147 | dot i sits at sample i's value, in the first sample's severity colour for i = 0 and in "#2563eb" after it |
| AqiTrendChart.SummaryOps | src/AqiTrendChart.jsx:150-158 | the summary is three texts in the tick text colour |
| AqiTrendChart.AxesOps | src/AqiTrendChart.jsx:50-97 | everything drawn before the empty-data check is a frame operation |
| AqiTrendChart.PlotOps | src/AqiTrendChart.jsx:108-168 | what follows the empty-data check: area, line, dots, summary, caption; stated by TrendDots, TrendSummary and PlotHasNoMarks |
| AqiTrendChart.TrendOps | src/AqiTrendChart.jsx:19-168 | one render's operations: the frame, then the placeholder for empty data or the plot; stated by PlaceholderIffEmpty, TrendDots and TrendSummary |
| AqiTrendChart.YTickOpsTexts | src/AqiTrendChart.jsx:69 | every Y tick text is a number |
| AqiTrendChart.DrawYTicks | src/AqiTrendChart.jsx:63-70 | the forEach appends exactly YTickOps |
| AqiTrendChart.DrawXTicks | src/AqiTrendChart.jsx:85-97 | the forEach appends each mark and writes a label exactly when the thinning rule holds |
| AqiTrendChart.DrawDots | src/AqiTrendChart.jsx:134-147 | the point loop appends exactly the dots DotOpsAt describes, taking the first colour from getAqiColor |
| AqiTrendChart.DrawFrame | src/AqiTrendChart.jsx:19-97 | the clear, the range, both axes and their ticks append exactly AxesOps |
| AqiTrendChart.DrawSummary | src/AqiTrendChart.jsx:150-158 | the Min, Last and Max texts are appended in that order |
| AqiTrendChart.DrawPlot | src/AqiTrendChart.jsx:108-168 | the area, the line, the dots, the summary and the caption are appended in that order |
| AqiTrendChart.RenderTrend | src/AqiTrendChart.jsx:7-169 | the surface has the integers the page stores for size*dpr and 0.7*size*dpr, and holds exactly the chart's operations, returning after the placeholder when there is no data |
| AqiTrendChart.EmptyTrendDrawsPlaceholder | src/AqiTrendChart.jsx:100-106 | with no data the axes are still drawn and the last operation is the placeholder; no area, line, dot, Min/Last/Max text or axis caption is drawn, and every other text is a Y tick number |
| AqiTrendChart.PlaceholderIffEmpty | src/AqiTrendChart.jsx:100-106 | the placeholder is drawn if and only if the series is empty |
| AqiTrendChart.TrendDots | src/AqiTrendChart.jsx:134-147 | a non-empty chart draws exactly one dot per sample, in order, the first in getAqiColor(data[0]) and the rest in "#2563eb" |
| AqiTrendChart.TrendSummary | src/AqiTrendChart.jsx:150-167 | a non-empty chart ends with the Min, Last and Max texts followed by the axis caption |
| AqiTrendChart.SummaryReadsBack | src/AqiTrendChart.jsx:153-157 | the summary texts read back as the true minimum, the last sample and the true maximum |
| AqiTrendChart.SingleSampleTrend | src/AqiTrendChart.jsx:85-147 | one sample gets no X tick marks and a single dot in its severity colour |
| AqiTrendChart.SingleSampleNoXTicks | src/AqiTrendChart.jsx:85-97 | a one-sample chart strokes no X tick mark |
| AqiTrendChart.PlotHasNoMarks | src/AqiTrendChart.jsx:108-168 | nothing drawn after the empty-data check is an axis or tick stroke |
| App.CategoryTableWellFormed | src/App.jsx:140-147 | six categories with strictly increasing bounds |
| App.CategoryNamesDistinct | src/App.jsx:140-147 | the six category names are distinct |
| App.CategoryOf | src/App.jsx:148-152 | the first category whose bound is at least v, Hazardous above all; characterised by CategoryInBand and CategoryOverflow |
| App.GetAqiCategory | src/App.jsx:148-153 | the loop with early return yields the first category whose bound is at least the value, the last one otherwise |
| App.CategoryInBand | src/App.jsx:148-151 | a value in (bound i-1, bound i] is in category i |
| App.CategoryBoundaries | src/App.jsx:148-151 | the values 50, 100, 150, 200, 300 and 500 fall in the lower of their two categories |
| App.CategoryOverflow | src/App.jsx:152 | every value above 500 is "Hazardous" |
| App.CategoryMonotone | src/App.jsx:148-152 | a larger value is never in a milder category |
| App.ColorMatchesCategory | src/App.jsx:140-147 | for every value, the gauge's colour equals the colour of its category |
| App.Jitter | src/App.jsx:62 | Math.round(r*8 - 4) lies in [-4, 4] for a draw in [0, 1) |
| App.JitterExtremes | src/App.jsx:62 | both -4 and 4 are reached |
| App.ScaledTrend | src/App.jsx:58 | the first 24 entries, each times 50; stated by TrendFromForecast |
| App.AllSame | src/App.jsx:60 | every entry equals the first; TrendFromForecast states when it makes the trend jitter |
| App.Jittered | src/App.jsx:62 | entry i plus the jitter of draw i; stated by TrendFromForecast and JitterExtremes |
| App.BuildTrend | src/App.jsx:58-63 | the first 24 entries times 50, jittered when all are equal; stated by TrendFromForecast |
| App.TrendFromForecast | src/App.jsx:57-63 | the trend has min(24, n) entries, each within 4 of list[i]*50; it is exactly list[i]*50 unless all entries were equal, and moved by draw i's jitter when they were |
| App.GaugeReading | src/App.jsx:66-71 | the reading is the first entry times 50, labelled "OWM AQI"; stated by GaugeAfterFetch and TrendStartsAtGauge |
| App.TrendStartsAtGauge | src/App.jsx:58-68 | the trend starts within 4 of the gauge value; without jitter it starts at it, and the first dot has the gauge's colour and the category's colour |
| App.JitterCanRecolourFirstDot | src/App.jsx:60-68 | two entries of index 2 with a first draw of 0.625 give a first sample of 101, drawn in a different colour from the gauge's 100 |
| App.CityName | src/App.jsx:87 | the city is the first place's name when it is non-empty and "Unknown" otherwise, so it is never empty |
| App.AfterForecast | src/App.jsx:54-81 | the state after the forecast response: reading and trend on entries, a trend error on none or on an HTTP failure; stated by FetchOutcome and FetchTrendError |
| App.AfterFetch | src/App.jsx:45-98 | the state a completed fetch leaves; stated by FetchSettles, FetchOutcome, FetchTrendError and FetchCity |
| App.FetchSettles | src/App.jsx:45-98 | every fetch ends with loading off, keeps the location and data mode, and sets the error exactly when a step threw |
| App.FetchOutcome | src/App.jsx:54-93 | a reading is set if and only if the forecast had entries and nothing threw; it is then list[0]*50 with its trend, otherwise the trend is empty and a trend error is set |
| App.FetchTrendError | src/App.jsx:72-93 | each failure path leaves its own trend error message |
| App.FetchCity | src/App.jsx:82-94 | a city is named if and only if geocoding answered ok and nothing threw |
| App.GaugeValue | src/App.jsx:184-190 | the gauge shows the reading only when not loading, without error, and with a reading |
| App.DisplayedCategory | src/App.jsx:154 | a category only for a present, non-zero reading |
| App.InfoPanel | src/App.jsx:195-231 | the panel: fetching, the error, the reading with city and category, or "No AQI data." |
| App.GaugeAfterFetch | src/App.jsx:184-190 | after a fetch the gauge shows list[0]*50 exactly when the fetch succeeded |
| App.ChartAfterFetch | src/App.jsx:239 | after a fetch the chart draws its placeholder if and only if the fetch did not succeed |
| App.PanelAfterFetch | src/App.jsx:195-231 | the panel shows the error text when a step threw and "No AQI data." after a quiet failure; otherwise it shows the reading, with a category if and only if the reading is not 0 |
| App.IsLowBandwidth | src/App.jsx:25-29 | the data saver is on or the link is 2g or slow-2g |
| App.ShouldFetch | src/App.jsx:123 | a location with non-zero latitude and longitude |
| App.RefreshInterval | src/App.jsx:132 | 30 minutes in low-data mode, 15 otherwise, in milliseconds |
| App.RefreshPeriod | src/App.jsx:129-135 | a timer with RefreshInterval's period exactly when a fetch is due; stated by RefreshFollowsConnection and NoLocationNoRefresh |
| App.RefreshFollowsConnection | src/App.jsx:129-137 | with a usable location the timer runs every 1,800,000 ms if and only if the data saver is on or the link is 2g or slow-2g, and every 900,000 ms otherwise |
| App.NoLocationNoRefresh | src/App.jsx:122-130 | without a location, or with a zero coordinate, neither the fetch nor the timer starts |
| App.AfterGeolocation | src/App.jsx:101-119 | the state after each geolocation callback; stated by GeolocationOutcomes |
| App.GeolocationOutcomes | src/App.jsx:101-126 | a failed geolocation stops loading, shows its message and starts no fetch; a position with non-zero coordinates keeps loading and leads to a fetch |
| App.Dashboard.constructor | src/App.jsx:10-17 | the initial state: no location or reading, loading, no error, normal data mode, empty trend, no city |
| App.Dashboard.UpdateConnection | src/App.jsx:22-34 | low-data mode becomes true if and only if saveData is on or the link is 2g or slow-2g, and is untouched without a connection object |
| App.Dashboard.ApplyGeolocation | src/App.jsx:101-119 | the state after the geolocation callbacks is AfterGeolocation of the state before |
| App.Dashboard.FetchAqiFromOwm | src/App.jsx:45-98 | the state after the fetch is AfterFetch of the state before |

## Left out

- I/O is reduced to inputs: `fetch`, URL construction and the API key, JSON
  parsing, reverse geocoding and `navigator.geolocation`. A forecast body
  without a list is the same as an empty list. A body or entry of another
  shape that makes the code throw is the exception outcome.
- Intermediate renders during a fetch are not modelled. Between the `await`s
  the component shows `loading` true and the partly reset fields; the model
  states only the state once the fetch has finished.
- The timers (`setInterval`/`clearInterval`) and the connection `change`
  listener are not modelled. Nor are overlapping fetches from a timer and a
  location change, which are concurrency. Only the refresh-interval rule and
  the effect guards are kept.
- `Math.random` is an input sequence of draws in [0, 1). `window.devicePixelRatio`
  is the `dpr` parameter, so its `|| 1` fallback for a missing ratio is not
  modelled.
- Canvas pixel geometry is not modelled: padding, fonts, line widths, x and
  y coordinates, text baselines, the rotation of the axis caption, and pi.
  Angles are in units of pi radians, and operations record what is drawn, in
  which style and order, not where.
- Numerals.IntToString: writes every integer in plain decimal digits.
  JavaScript switches to exponent form ("1e+21") at magnitude 10^21, which
  no AQI value, tick or index here reaches.
- Canvas sizes are reals, not JavaScript numbers: a NaN or infinite
  `size * dpr`, which the page would store as 0, is not modelled.
- The missing-canvas early return (`if (!canvas) return`) is not modelled; a
  surface is always given.
- RenderGauge: requires max > min. With max == min the quotient is +Infinity
  above min and -Infinity below it, which the clamp turns into a full or an
  empty arc. At value == min it is NaN, and the value arc adds nothing.
  None of this is modelled.
- Non-numeric values (NaN, undefined `main.aqi`) are not modelled. Trend
  samples are integers and the gauge value is a real.
- Two code paths divide by zero and are not modelled: the X positions
  computed from the index for a single sample (`chartW / 0`), and the gauge
  at max == min.
- For a single sample, the area, line and dot operations stand for canvas
  calls that paint nothing visible. The line and the dot have NaN x
  coordinates, and the area encloses no width. The record
  keeps the calls in order and style; it does not say what reaches the pixels.
- The value-change pulse animation (`aqiValueRef`), framer-motion, the icons,
  the header and banner markup, and `src/PollutantCard.jsx` are
  presentation. `src/PollutantCard.jsx` is not part of this model.
- The trend chart's unused `nowAqi` property is ignored.
