/** The dashboard component: the severity categories shown beside the
    gauge, the 24-hour trend built from an air-pollution forecast, the
    state a fetch leaves behind on each of its outcomes, the geolocation
    outcomes, the low-bandwidth detection and the refresh policy. Network
    responses, the geolocation result, the connection description and the
    draws of Math.random are inputs. */
module App {
  import opened Bands
  import opened Numerals
  import opened AqiGauge
  import opened AqiTrendChart

  datatype Option<T> = None | Some(value: T)

  // ---------------------------------------------------------------------
  // Severity categories

  datatype Category = Category(max: int, name: string, color: string, message: string)

  /** US EPA AQI categories, ascending by inclusive upper bound. */
  const AqiCategories: seq<Category> := [
    Category(50, "Good", "#4ade80", "Air quality is satisfactory."),
    Category(100, "Moderate", "#fde047", "Air quality is acceptable."),
    Category(150, "Unhealthy for Sensitive Groups", "#fbbf24", "Sensitive groups may experience health effects."),
    Category(200, "Unhealthy", "#f87171", "Everyone may begin to experience health effects."),
    Category(300, "Very Unhealthy", "#a78bfa", "Health alert: everyone may experience more serious health effects."),
    Category(500, "Hazardous", "#a16207", "Health warnings of emergency conditions.")
  ]

  /** The upper bounds of the categories, in table order. */
  const CategoryBounds: seq<int> := Bounds(AqiCategories, (c: Category) => c.max)

  /** Six categories with strictly increasing bounds. */
  lemma CategoryTableWellFormed()
    ensures |AqiCategories| == 6 && StrictlyIncreasing(CategoryBounds)
  {
    assert CategoryBounds == [50, 100, 150, 200, 300, 500];
  }

  /** No two categories share a name. */
  lemma CategoryNamesDistinct()
    ensures forall i, j | 0 <= i < j < |AqiCategories| :: AqiCategories[i].name != AqiCategories[j].name
  {
  }

  /** The first category whose bound is at least v; Hazardous above 500. */
  function CategoryOf(v: real): Category {
    AqiCategories[FirstBandIndex(CategoryBounds, v)]
  }

  /** getAqiCategory: scan the categories in order and return on the first
      match, falling back to the last one. */
  method GetAqiCategory(aqi: real) returns (cat: Category)
    ensures cat == CategoryOf(aqi)
  {
    CategoryTableWellFormed();
    for i := 0 to |AqiCategories|
      invariant forall j | 0 <= j < i :: (AqiCategories[j].max as real) < aqi
    {
      if aqi <= AqiCategories[i].max as real {
        BandCharacterization(CategoryBounds, aqi, i);
        return AqiCategories[i];
      }
    }
    BandCharacterization(CategoryBounds, aqi, |AqiCategories| - 1);
    return AqiCategories[|AqiCategories| - 1];
  }

  /** A value above the previous category's bound and at or below category
      i's bound is in category i; a boundary value takes the lower one. */
  lemma CategoryInBand(v: real, i: nat)
    requires i < |AqiCategories|
    requires i == 0 || (AqiCategories[i - 1].max as real) < v
    requires v <= AqiCategories[i].max as real || i == |AqiCategories| - 1
    ensures CategoryOf(v) == AqiCategories[i]
  {
    CategoryTableWellFormed();
    BandCharacterization(CategoryBounds, v, i);
  }

  /** The boundary values each belong to the lower of their two categories. */
  lemma CategoryBoundaries()
    ensures CategoryOf(50.0).name == "Good"
    ensures CategoryOf(100.0).name == "Moderate"
    ensures CategoryOf(150.0).name == "Unhealthy for Sensitive Groups"
    ensures CategoryOf(200.0).name == "Unhealthy"
    ensures CategoryOf(300.0).name == "Very Unhealthy"
    ensures CategoryOf(500.0).name == "Hazardous"
  {
    CategoryInBand(50.0, 0);
    CategoryInBand(100.0, 1);
    CategoryInBand(150.0, 2);
    CategoryInBand(200.0, 3);
    CategoryInBand(300.0, 4);
    CategoryInBand(500.0, 5);
  }

  /** Every value above 500 is Hazardous. */
  lemma CategoryOverflow(v: real)
    requires v > 500.0
    ensures CategoryOf(v).name == "Hazardous"
  {
    CategoryInBand(v, 5);
  }

  /** A larger value is never in a milder category. */
  lemma CategoryMonotone(v: real, w: real)
    requires v <= w
    ensures CategoryOf(v).max <= CategoryOf(w).max
  {
    CategoryTableWellFormed();
    BoundMonotone(CategoryBounds, v, w);
  }

  /** The gauge's colour table and the category table agree: the gauge is
      drawn in the colour of the category shown beside it. */
  lemma ColorMatchesCategory(v: real)
    ensures AqiColor(v) == CategoryOf(v).color
  {
    assert CategoryBounds == LevelBounds;
    assert forall i | 0 <= i < |AqiCategories| :: AqiCategories[i].color == AqiLevels[i].color;
  }

  // ---------------------------------------------------------------------
  // The trend built from a forecast

  /** The trend keeps at most the first 24 hourly forecast entries. */
  const MaxTrend: nat := 24

  function TrendLength(n: nat): nat {
    if n < MaxTrend then n else MaxTrend
  }

  /** The forecast's AQI indices (1 to 5) on the 0-500 scale: the first 24
      entries, each times 50. */
  function ScaledTrend(list: seq<int>): seq<int> {
    var n := TrendLength(|list|);
    seq(n, i requires 0 <= i < n => list[i] * 50)
  }

  predicate AllSame(t: seq<int>) {
    forall i | 0 <= i < |t| :: t[i] == t[0]
  }

  /** Math.round(r * 8 - 4) for a draw r of Math.random. */
  function Jitter(r: real): (j: int)
    ensures 0.0 <= r < 1.0 ==> -4 <= j <= 4
  {
    Round(r * 8.0 - 4.0)
  }

  /** The draws of Math.random the jitter may use, one per trend entry. */
  predicate ValidRandoms(randoms: seq<real>) {
    |randoms| >= MaxTrend && forall i | 0 <= i < |randoms| :: 0.0 <= randoms[i] < 1.0
  }

  /** Entry i moved by the jitter of draw i. */
  function Jittered(t: seq<int>, randoms: seq<real>): seq<int>
    requires |randoms| >= |t|
  {
    seq(|t|, i requires 0 <= i < |t| => t[i] + Jitter(randoms[i]))
  }

  /** The trend of a fetch: the scaled entries, jittered only when they are
      all equal, so that a flat forecast still shows some movement. */
  function BuildTrend(list: seq<int>, randoms: seq<real>): seq<int>
    requires |randoms| >= MaxTrend
  {
    var t := ScaledTrend(list);
    if AllSame(t) then Jittered(t, randoms) else t
  }

  /** What the trend holds: at most 24 entries, entry i within 4 of
      list[i] * 50, exactly list[i] * 50 unless every entry was equal, and
      moved by the jitter of draw i when they were. */
  lemma TrendFromForecast(list: seq<int>, randoms: seq<real>)
    requires ValidRandoms(randoms)
    ensures |BuildTrend(list, randoms)| == TrendLength(|list|) <= MaxTrend
    ensures |list| > 0 ==> |BuildTrend(list, randoms)| > 0
    ensures forall i | 0 <= i < |BuildTrend(list, randoms)| ::
      -4 <= BuildTrend(list, randoms)[i] - list[i] * 50 <= 4
    ensures !AllSame(ScaledTrend(list)) ==>
      forall i | 0 <= i < |BuildTrend(list, randoms)| :: BuildTrend(list, randoms)[i] == list[i] * 50
    ensures AllSame(ScaledTrend(list)) ==>
      forall i | 0 <= i < |BuildTrend(list, randoms)| ::
        BuildTrend(list, randoms)[i] == list[i] * 50 + Jitter(randoms[i])
  {
    var t := BuildTrend(list, randoms);
    forall i | 0 <= i < |t|
      ensures -4 <= t[i] - list[i] * 50 <= 4
    {
      assert -4 <= Jitter(randoms[i]) <= 4;
    }
  }

  /** The jitter reaches both ends of [-4, 4]. */
  lemma JitterExtremes()
    ensures Jitter(0.0) == -4
    ensures Jitter(0.9375) == 4
  {
    RoundIsNearest(-4.0, -4);
    RoundIsNearest(3.5, 4);
  }

  /** The gauge reading of a forecast: its first entry on the 0-500 scale. */
  function GaugeReading(list: seq<int>): Reading
    requires |list| > 0
  {
    Reading(list[0] * 50, "OWM AQI", "AQI")
  }

  /** Unless the jitter was applied, the trend starts at the gauge's value
      and its first dot has the gauge's colour and the category's colour. */
  lemma TrendStartsAtGauge(list: seq<int>, randoms: seq<real>)
    requires ValidRandoms(randoms) && |list| > 0
    ensures |BuildTrend(list, randoms)| > 0
    ensures -4 <= BuildTrend(list, randoms)[0] - GaugeReading(list).value <= 4
    ensures !AllSame(ScaledTrend(list)) ==> BuildTrend(list, randoms)[0] == GaugeReading(list).value
    ensures !AllSame(ScaledTrend(list)) ==>
      FirstDotStyle(BuildTrend(list, randoms)) == AqiColor(GaugeReading(list).value as real)
        == CategoryOf(GaugeReading(list).value as real).color
  {
    TrendFromForecast(list, randoms);
    ColorMatchesCategory(GaugeReading(list).value as real);
  }

  /** The forecast values sit on category boundaries (100 for index 2), so a
      jitter of one can move the first dot into the next category: two equal
      entries of index 2 and a first draw of 0.625 give a first sample of
      101, drawn in the colour of the next category up from the gauge's. */
  lemma JitterCanRecolourFirstDot()
    ensures var randoms := [0.625] + seq(MaxTrend - 1, _ => 0.5);
      ValidRandoms(randoms) &&
      BuildTrend([2, 2], randoms)[0] == 101 &&
      FirstDotStyle(BuildTrend([2, 2], randoms)) != AqiColor(GaugeReading([2, 2]).value as real)
  {
    var randoms := [0.625] + seq(MaxTrend - 1, _ => 0.5);
    RoundIsNearest(1.0, 1);
    RoundIsNearest(0.0, 0);
    var t := BuildTrend([2, 2], randoms);
    assert ScaledTrend([2, 2]) == [100, 100];
    assert t[0] == 101;
    AqiColorInBand(101.0, 2);
    AqiColorInBand(100.0, 1);
  }

  // ---------------------------------------------------------------------
  // Component state and the fetch

  datatype Coords = Coords(lat: real, lon: real)

  /** The reading shown beside the gauge. */
  datatype Reading = Reading(value: int, parameter: string, unit: string)

  /** How the air-pollution forecast request ends: a response whose body
      lists the hourly AQI indices (empty when the body has no list), a
      response that is not ok, or an exception (network failure, a body
      that is not JSON). */
  datatype ForecastResponse = ForecastOk(list: seq<int>) | ForecastHttpError | ForecastThrows

  /** How the reverse-geocoding request ends; an ok response carries the
      name of its first place, if it has one. */
  datatype GeoResponse = GeoOk(firstName: Option<string>) | GeoHttpError | GeoThrows

  /** The component's state at one moment. */
  datatype View = View(
    location: Option<Coords>,
    aqi: Option<Reading>,
    loading: bool,
    error: Option<string>,
    lowDataMode: bool,
    aqiTrend: seq<int>,
    trendError: Option<string>,
    city: string)

  const InitialView := View(None, None, true, None, false, [], None, "")

  const NoTrendMessage := "No AQI trend data available from OpenWeatherMap."
  const TrendRequestFailedMessage := "Failed to fetch AQI trend data from OpenWeatherMap API."
  const FetchFailedMessage := "Failed to fetch air quality data."
  const TrendFetchErrorMessage := "Error fetching AQI trend data."
  const NoGeolocationMessage := "Geolocation is not supported by your browser."
  const LocationDeniedMessage := "Unable to retrieve your location."

  /** The first place's name, or "Unknown" when it is missing or empty. */
  function CityName(first: Option<string>): (name: string)
    ensures name != ""
    ensures first.Some? && first.value != "" ==> name == first.value
    ensures !(first.Some? && first.value != "") ==> name == "Unknown"
  {
    if first.Some? && first.value != "" then first.value else "Unknown"
  }

  /** Some step of the fetch threw: the forecast request, or the
      geocoding request made after the forecast was handled. */
  predicate Throws(forecast: ForecastResponse, geo: GeoResponse) {
    forecast.ForecastThrows? || geo.GeoThrows?
  }

  /** The fetch produced a reading: a forecast with entries and no
      exception afterwards. */
  predicate Succeeded(forecast: ForecastResponse, geo: GeoResponse) {
    forecast.ForecastOk? && |forecast.list| > 0 && !geo.GeoThrows?
  }

  /** The state once the forecast response has been handled. */
  function AfterForecast(s: View, forecast: ForecastResponse, randoms: seq<real>): View
    requires !forecast.ForecastThrows? && |randoms| >= MaxTrend
  {
    match forecast
    case ForecastHttpError =>
      s.(aqiTrend := [], aqi := None, trendError := Some(TrendRequestFailedMessage))
    case ForecastOk(list) =>
      if |list| > 0 then
        s.(aqiTrend := BuildTrend(list, randoms), aqi := Some(GaugeReading(list)), trendError := None)
      else
        s.(aqiTrend := [], aqi := None, trendError := Some(NoTrendMessage))
  }

  /** The state a completed fetch leaves. */
  function AfterFetch(s: View, forecast: ForecastResponse, geo: GeoResponse, randoms: seq<real>): View
    requires |randoms| >= MaxTrend
  {
    if Throws(forecast, geo) then
      s.(loading := false, error := Some(FetchFailedMessage), aqi := None, aqiTrend := [],
         trendError := Some(TrendFetchErrorMessage), city := "")
    else
      AfterForecast(s, forecast, randoms).(loading := false, error := None,
        city := if geo.GeoOk? then CityName(geo.firstName) else "")
  }

  /** Every fetch ends with loading off, leaves the location and the data
      mode alone, and reports an error exactly when some step threw. */
  lemma FetchSettles(s: View, forecast: ForecastResponse, geo: GeoResponse, randoms: seq<real>)
    requires ValidRandoms(randoms)
    ensures !AfterFetch(s, forecast, geo, randoms).loading
    ensures AfterFetch(s, forecast, geo, randoms).location == s.location
    ensures AfterFetch(s, forecast, geo, randoms).lowDataMode == s.lowDataMode
    ensures AfterFetch(s, forecast, geo, randoms).error.Some? <==> Throws(forecast, geo)
    ensures Throws(forecast, geo) ==> AfterFetch(s, forecast, geo, randoms).error == Some(FetchFailedMessage)
  {
  }

  /** A reading is shown exactly when the fetch succeeded; it is then the
      first forecast entry and the trend is built from the forecast, and
      otherwise the trend is empty and a trend error explains why. */
  lemma FetchOutcome(s: View, forecast: ForecastResponse, geo: GeoResponse, randoms: seq<real>)
    requires ValidRandoms(randoms)
    ensures AfterFetch(s, forecast, geo, randoms).aqi.Some? <==> Succeeded(forecast, geo)
    ensures Succeeded(forecast, geo) ==>
      AfterFetch(s, forecast, geo, randoms).aqi == Some(GaugeReading(forecast.list)) &&
      AfterFetch(s, forecast, geo, randoms).aqiTrend == BuildTrend(forecast.list, randoms) &&
      AfterFetch(s, forecast, geo, randoms).trendError == None
    ensures !Succeeded(forecast, geo) ==>
      AfterFetch(s, forecast, geo, randoms).aqiTrend == [] &&
      AfterFetch(s, forecast, geo, randoms).trendError.Some?
  {
  }

  /** Which message explains a missing trend. */
  lemma FetchTrendError(s: View, forecast: ForecastResponse, geo: GeoResponse, randoms: seq<real>)
    requires ValidRandoms(randoms)
    ensures Throws(forecast, geo) ==>
      AfterFetch(s, forecast, geo, randoms).trendError == Some(TrendFetchErrorMessage)
    ensures forecast.ForecastHttpError? && !geo.GeoThrows? ==>
      AfterFetch(s, forecast, geo, randoms).trendError == Some(TrendRequestFailedMessage)
    ensures forecast == ForecastOk([]) && !geo.GeoThrows? ==>
      AfterFetch(s, forecast, geo, randoms).trendError == Some(NoTrendMessage)
  {
  }

  /** A city is named exactly when geocoding answered ok and nothing threw;
      it is the first place's name when that is non-empty. */
  lemma FetchCity(s: View, forecast: ForecastResponse, geo: GeoResponse, randoms: seq<real>)
    requires ValidRandoms(randoms)
    ensures AfterFetch(s, forecast, geo, randoms).city != "" <==> !Throws(forecast, geo) && geo.GeoOk?
    ensures !Throws(forecast, geo) && geo.GeoOk? && geo.firstName.Some? && geo.firstName.value != "" ==>
      AfterFetch(s, forecast, geo, randoms).city == geo.firstName.value
  {
  }

  /** The gauge shows a value only when nothing is loading, no error is
      reported and a reading exists. */
  function GaugeValue(s: View): Option<int> {
    if s.loading || s.error.Some? || s.aqi.None? then None else Some(s.aqi.value.value)
  }

  /** The category shown beside the reading: none without a reading, and
      none for a reading of 0, which JavaScript treats as false. */
  function DisplayedCategory(aqi: Option<Reading>): Option<Category> {
    if aqi.Some? && aqi.value.value != 0 then Some(CategoryOf(aqi.value.value as real)) else None
  }

  /** The information panel beside the gauge. */
  datatype Panel =
    | Fetching
    | ErrorText(message: string)
    | ReadingPanel(reading: Reading, city: string, category: Option<Category>)
    | NoReading

  function InfoPanel(s: View): Panel {
    if s.loading then Fetching
    else if s.error.Some? then ErrorText(s.error.value)
    else if s.aqi.Some? then ReadingPanel(s.aqi.value, s.city, DisplayedCategory(s.aqi))
    else NoReading
  }

  /** After a fetch the gauge shows the first forecast value exactly when
      the fetch succeeded. */
  lemma GaugeAfterFetch(s: View, forecast: ForecastResponse, geo: GeoResponse, randoms: seq<real>)
    requires ValidRandoms(randoms)
    ensures GaugeValue(AfterFetch(s, forecast, geo, randoms))
      == if Succeeded(forecast, geo) then Some(forecast.list[0] * 50) else None
  {
  }

  /** After a fetch the chart draws its placeholder exactly when the fetch
      did not succeed. */
  lemma ChartAfterFetch(s: View, forecast: ForecastResponse, geo: GeoResponse, randoms: seq<real>)
    requires ValidRandoms(randoms)
    ensures Placeholder in TrendOps(AfterFetch(s, forecast, geo, randoms).aqiTrend)
      <==> !Succeeded(forecast, geo)
  {
    var trend := AfterFetch(s, forecast, geo, randoms).aqiTrend;
    assert |trend| == 0 <==> !Succeeded(forecast, geo) by {
      FetchOutcome(s, forecast, geo, randoms);
      if Succeeded(forecast, geo) {
        TrendFromForecast(forecast.list, randoms);
      }
    }
    PlaceholderIffEmpty(trend);
  }

  /** The panel after a fetch: the error text when a step threw, "No AQI
      data." when the forecast failed quietly, otherwise the reading with
      its category unless the reading is 0. */
  lemma PanelAfterFetch(s: View, forecast: ForecastResponse, geo: GeoResponse, randoms: seq<real>)
    requires ValidRandoms(randoms)
    ensures Throws(forecast, geo) ==> InfoPanel(AfterFetch(s, forecast, geo, randoms)) == ErrorText(FetchFailedMessage)
    ensures !Throws(forecast, geo) && !Succeeded(forecast, geo) ==>
      InfoPanel(AfterFetch(s, forecast, geo, randoms)) == NoReading
    ensures Succeeded(forecast, geo) ==>
      InfoPanel(AfterFetch(s, forecast, geo, randoms)).ReadingPanel? &&
      InfoPanel(AfterFetch(s, forecast, geo, randoms)).reading.value == forecast.list[0] * 50 &&
      (InfoPanel(AfterFetch(s, forecast, geo, randoms)).category.Some? <==> forecast.list[0] != 0)
  {
  }

  // ---------------------------------------------------------------------
  // Connection, geolocation and refresh

  /** What the Network Information API reports. */
  datatype Connection = Connection(saveData: bool, effectiveType: string)

  /** The data saver is on, or the link is 2G or slower. */
  predicate IsLowBandwidth(c: Connection) {
    c.saveData || c.effectiveType == "2g" || c.effectiveType == "slow-2g"
  }

  /** How the browser's geolocation request ends. */
  datatype GeolocationOutcome = Unsupported | Located(coords: Coords) | Denied

  function AfterGeolocation(s: View, outcome: GeolocationOutcome): View {
    match outcome
    case Unsupported => s.(error := Some(NoGeolocationMessage), loading := false)
    case Located(c) => s.(location := Some(c))
    case Denied => s.(error := Some(LocationDeniedMessage), loading := false)
  }

  /** The fetch and refresh effects run only for a location whose latitude
      and longitude are both non-zero (0 reads as false in JavaScript). */
  predicate ShouldFetch(location: Option<Coords>) {
    location.Some? && location.value.lat != 0.0 && location.value.lon != 0.0
  }

  /** Milliseconds between refreshes: 30 minutes in low-data mode, else 15. */
  function RefreshInterval(lowDataMode: bool): nat {
    (if lowDataMode then 30 else 15) * 60 * 1000
  }

  /** The refresh timer's period, when a timer is set at all. */
  function RefreshPeriod(location: Option<Coords>, lowDataMode: bool): Option<nat> {
    if ShouldFetch(location) then Some(RefreshInterval(lowDataMode)) else None
  }

  /** Low-data mode halves the refresh rate: a timer runs every 30 minutes
      exactly when the connection is slow or saving data, every 15
      otherwise. */
  lemma RefreshFollowsConnection(location: Option<Coords>, c: Connection)
    requires ShouldFetch(location)
    ensures RefreshPeriod(location, IsLowBandwidth(c)) == Some(1800000)
      <==> c.saveData || c.effectiveType == "2g" || c.effectiveType == "slow-2g"
    ensures RefreshPeriod(location, IsLowBandwidth(c)) == Some(900000) <==> !IsLowBandwidth(c)
    ensures RefreshInterval(true) == 2 * RefreshInterval(false)
  {
  }

  /** Without a usable location no fetch and no timer is started. */
  lemma NoLocationNoRefresh(location: Option<Coords>, low: bool)
    requires location.None? || location.value.lat == 0.0 || location.value.lon == 0.0
    ensures !ShouldFetch(location) && RefreshPeriod(location, low) == None
  {
  }

  /** The first moments of the page: a failed geolocation stops loading
      with its message and starts no fetch; a position with non-zero
      coordinates is stored, loading stays on, and a fetch follows. */
  lemma GeolocationOutcomes(outcome: GeolocationOutcome)
    ensures !outcome.Located? ==>
      !AfterGeolocation(InitialView, outcome).loading &&
      InfoPanel(AfterGeolocation(InitialView, outcome)).ErrorText? &&
      !ShouldFetch(AfterGeolocation(InitialView, outcome).location)
    ensures outcome.Located? && outcome.coords.lat != 0.0 && outcome.coords.lon != 0.0 ==>
      AfterGeolocation(InitialView, outcome).loading &&
      ShouldFetch(AfterGeolocation(InitialView, outcome).location)
  {
  }

  /** The component: its state variables and the handlers that set them. */
  class Dashboard {
    var location: Option<Coords>
    var aqi: Option<Reading>
    var loading: bool
    var error: Option<string>
    var lowDataMode: bool
    var aqiTrend: seq<int>
    var trendError: Option<string>
    var city: string

    function Snapshot(): View
      reads this
    {
      View(location, aqi, loading, error, lowDataMode, aqiTrend, trendError, city)
    }

    constructor ()
      ensures Snapshot() == InitialView
    {
      location, aqi, loading, error := None, None, true, None;
      lowDataMode, aqiTrend, trendError, city := false, [], None, "";
    }

    /** updateConnection: follow the connection when one is reported. */
    method UpdateConnection(conn: Option<Connection>)
      modifies this`lowDataMode
      ensures conn.Some? ==> lowDataMode == IsLowBandwidth(conn.value)
      ensures conn.None? ==> lowDataMode == old(lowDataMode)
    {
      if conn.Some? {
        var c := conn.value;
        if c.saveData || c.effectiveType == "2g" || c.effectiveType == "slow-2g" {
          lowDataMode := true;
        } else {
          lowDataMode := false;
        }
      }
    }

    /** The geolocation effect's callbacks. */
    method ApplyGeolocation(outcome: GeolocationOutcome)
      modifies this
      ensures Snapshot() == AfterGeolocation(old(Snapshot()), outcome)
    {
      match outcome {
        case Unsupported =>
          error := Some(NoGeolocationMessage);
          loading := false;
        case Located(c) =>
          location := Some(c);
        case Denied =>
          error := Some(LocationDeniedMessage);
          loading := false;
      }
    }

    /** fetchAqiFromOWM, from the reset at its start through the forecast
        and geocoding responses to the final clearing of loading. */
    method FetchAqiFromOwm(forecast: ForecastResponse, geo: GeoResponse, randoms: seq<real>)
      requires ValidRandoms(randoms)
      modifies this
      ensures Snapshot() == AfterFetch(old(Snapshot()), forecast, geo, randoms)
    {
      loading := true;
      trendError := None;
      error := None;
      city := "";
      var thrown := false;
      match forecast {
        case ForecastThrows =>
          thrown := true;
        case ForecastHttpError =>
          aqiTrend := [];
          aqi := None;
          trendError := Some(TrendRequestFailedMessage);
        case ForecastOk(list) =>
          if |list| > 0 {
            var trend := ScaledTrend(list);
            if AllSame(trend) {
              trend := Jittered(trend, randoms);
            }
            aqiTrend := trend;
            aqi := Some(Reading(list[0] * 50, "OWM AQI", "AQI"));
          } else {
            aqiTrend := [];
            aqi := None;
            trendError := Some(NoTrendMessage);
          }
      }
      if !thrown {
        match geo {
          case GeoThrows =>
            thrown := true;
          case GeoHttpError =>
          case GeoOk(first) =>
            city := CityName(first);
        }
      }
      if thrown {
        error := Some(FetchFailedMessage);
        aqi := None;
        aqiTrend := [];
        trendError := Some(TrendFetchErrorMessage);
        city := "";
      }
      loading := false;
    }
  }
}
