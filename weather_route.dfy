/**
 * The weather API route (src/app/api/weather/route.ts): it checks the key, chooses the
 * WeatherAPI query, fetches the forecast and reshapes the answer into OpenWeather-style
 * records. The fetch itself is an input: `Upstream` is what it produced.
 */
module WeatherRoute {
  import opened Wrappers
  import opened Strings
  import opened WeatherTypes
  import WeatherCard

  const WEATHERAPI_BASE := "https://api.weatherapi.com/v1"
  const DEFAULT_CODE := 1000
  const MAX_HOURS := 24

  /** `toOWIcon(icon)`. */
  function ToOWIcon(icon: string): (r: string)
    ensures icon == [] ==> r == "01d"
    ensures StartsWith(icon, "//") ==> r == "https:" + icon
    ensures icon != [] && !StartsWith(icon, "//") ==> r == icon
  {
    WeatherCard.NotBothPrefixes(icon);
    if icon == [] then "01d"
    else if StartsWith(icon, "http") then icon
    else if StartsWith(icon, "//") then "https:" + icon
    else icon
  }

  /** Whatever icon the route sends, the card shows an absolute URL. */
  lemma CardShowsRouteIcon(icon: string, size2x: bool)
    ensures StartsWith(WeatherCard.IconSrc(Some(ToOWIcon(icon)), size2x), "http")
  {
    WeatherCard.IconSrcAbsolute(Some(ToOWIcon(icon)), size2x);
  }

  /** A separator of `split(/[\s,]/)`. */
  predicate IsWordBreak(c: char) {
    IsSpace(c) || c == ','
  }

  /** `text.split(/[\s,]/)[0]`: everything before the first white space or comma. */
  function FirstWord(text: string): (w: string)
    ensures w <= text
    ensures forall i :: 0 <= i < |w| ==> !IsWordBreak(w[i])
    ensures w == text || IsWordBreak(text[|w|])
  {
    if text == [] || IsWordBreak(text[0]) then [] else [text[0]] + FirstWord(text[1..])
  }

  /** A text with no white space or comma is its own first word. */
  lemma {:induction false} FirstWordOfWord(text: string)
    requires forall i :: 0 <= i < |text| ==> !IsWordBreak(text[i])
    ensures FirstWord(text) == text
  {
    if text != [] {
      FirstWordOfWord(text[1..]);
      assert [text[0]] + text[1..] == text;
    }
  }

  /** `toOWCondition(code, text)` with the icon the callers put over its `""`. */
  function ToOWCondition(code: int, text: string, icon: string): (c: Condition)
    ensures c.id == code && c.description == text && c.icon == ToOWIcon(icon)
    ensures c.main == (if FirstWord(text) == [] then "Unknown" else FirstWord(text))
  {
    var word := FirstWord(text);
    Condition(code, if word == [] then "Unknown" else word, text, ToOWIcon(icon))
  }

  /** The main word is never empty, and it is the first word of the text when there is one. */
  lemma ConditionMainWord(code: int, text: string, icon: string)
    ensures var c := ToOWCondition(code, text, icon);
            && c.main != []
            && (text != [] && !IsWordBreak(text[0]) ==> c.main <= text)
  {
  }

  /** A WeatherAPI `condition` object; a missing field is `None`. */
  datatype UpCondition = UpCondition(code: Option<int>, text: Option<string>, icon: Option<string>)

  const NO_CONDITION := UpCondition(None, None, None)

  /** The mapping every caller applies: code 1000, text "Unknown" and icon "" stand in for missing fields. */
  function ConditionOf(c: Option<UpCondition>): (r: Condition)
    ensures c.None? ==> r == Condition(DEFAULT_CODE, "Unknown", "Unknown", "01d")
  {
    var u := c.GetOr(NO_CONDITION);
    FirstWordOfWord("Unknown");
    ToOWCondition(u.code.GetOr(DEFAULT_CODE), u.text.GetOr("Unknown"), u.icon.GetOr(""))
  }

  /** WeatherAPI `current`. */
  datatype UpCurrent = UpCurrent(
    tempC: Option<real>,
    feelslikeC: Option<real>,
    humidity: Option<real>,
    pressureMb: Option<real>,
    windKph: Option<real>,
    condition: Option<UpCondition>)

  const NO_CURRENT := UpCurrent(None, None, None, None, None, None)

  /** One entry of `forecastday[i].hour`. */
  datatype UpHour = UpHour(
    timeEpoch: Option<int>,
    time: string,
    tempC: Option<real>,
    feelslikeC: Option<real>,
    humidity: Option<real>,
    windKph: Option<real>,
    condition: Option<UpCondition>)

  /**
   * One entry of `forecast.forecastday`, with `day.avgtemp_c` and `day.condition` lifted
   * out of `day`; `parsedDate` is `new Date(date).getTime() / 1000`.
   */
  datatype UpDay = UpDay(
    date: string,
    dateEpoch: Option<int>,
    parsedDate: int,
    avgTempC: Option<real>,
    condition: Option<UpCondition>,
    hour: Option<seq<UpHour>>)

  /** One entry of `alerts.alert`. */
  datatype UpAlert = UpAlert(
    headline: Option<string>,
    severity: Option<string>,
    event: Option<string>,
    desc: Option<string>,
    effective: Option<string>,
    expires: Option<string>)

  /** The parsed body of a successful WeatherAPI answer. */
  datatype UpData = UpData(
    locationName: Option<string>,
    current: Option<UpCurrent>,
    forecastday: Option<seq<UpDay>>,
    alerts: Option<seq<UpAlert>>)

  /** What the fetch produced: an exception, a non-OK status with its error message, or a body. */
  datatype Upstream =
    | Unreachable
    | HttpError(status: int, message: Option<string>)
    | Body(data: UpData)

  /** `Math.round(x * 10) / 10` on exact reals: to the nearest tenth, halves upward. */
  function RoundTenth(x: real): (r: real)
    ensures -0.05 < r - x <= 0.05
  {
    (x * 10.0 + 0.5).Floor as real / 10.0
  }

  /** The `current` block. */
  function CurrentOf(data: UpData): (c: CurrentWeather)
    ensures c.name == data.locationName.GetOr("Unknown")
    ensures |c.weather| == 1
    ensures var cur := data.current.GetOr(NO_CURRENT);
            && c.feelsLike == cur.feelslikeC.GetOr(cur.tempC.GetOr(0.0))
            && c.windSpeed == cur.windKph.GetOr(0.0) / 3.6
            && c.temp == cur.tempC.GetOr(0.0)
            && c.humidity == cur.humidity.GetOr(0.0)
            && c.pressure == cur.pressureMb.GetOr(0.0)
            && c.weather == [ConditionOf(cur.condition)]
    ensures data.current.None? ==>
              && c.temp == 0.0 && c.feelsLike == 0.0 && c.humidity == 0.0 && c.pressure == 0.0 && c.windSpeed == 0.0
              && c.weather == [Condition(DEFAULT_CODE, "Unknown", "Unknown", "01d")]
  {
    var cur := data.current.GetOr(NO_CURRENT);
    CurrentWeather(
      cur.tempC.GetOr(0.0),
      cur.feelslikeC.GetOr(cur.tempC.GetOr(0.0)),
      cur.humidity.GetOr(0.0),
      cur.pressureMb.GetOr(0.0),
      cur.windKph.GetOr(0.0) / 3.6,
      [ConditionOf(cur.condition)],
      data.locationName.GetOr("Unknown"))
  }

  /** One `forecastday` entry as a forecast-list item, stamped at noon of its date. */
  function ForecastItemOf(d: UpDay): (item: ForecastItem)
    ensures item.dtTxt == d.date + " 12:00:00"
    ensures item.dt == d.dateEpoch.GetOr(d.parsedDate)
  {
    ForecastItem(d.dateEpoch.GetOr(d.parsedDate), d.avgTempC.GetOr(0.0), [ConditionOf(d.condition)], d.date + " 12:00:00")
  }

  /** `forecastday.map(...)`: one item per day, in the same order. */
  function ForecastList(days: seq<UpDay>): (list: seq<ForecastItem>)
    ensures |list| == |days|
    ensures forall i :: 0 <= i < |days| ==> list[i] == ForecastItemOf(days[i])
  {
    seq(|days|, i requires 0 <= i < |days| => ForecastItemOf(days[i]))
  }

  /** An upstream day whose date has the `YYYY-MM-DD` length is its own calendar day on the card. */
  lemma CardDayOfForecastItem(d: UpDay)
    requires |d.date| == 10
    ensures WeatherCard.Day(ForecastItemOf(d)) == d.date
  {
    assert (d.date + " 12:00:00")[..10] == d.date;
  }

  /** With distinct ten-character dates, the card keeps every day the route sends, in order. */
  lemma CardKeepsEveryForecastDay(days: seq<UpDay>)
    requires forall i :: 0 <= i < |days| ==> |days[i].date| == 10
    requires forall i, j :: 0 <= i < j < |days| ==> days[i].date != days[j].date
    ensures WeatherCard.Daily(ForecastList(days)) == ForecastList(days)
  {
    var list := ForecastList(days);
    forall i | 0 <= i < |list|
      ensures WeatherCard.IsFirstOfDay(list, i)
    {
      forall j | 0 <= j < i
        ensures WeatherCard.Day(list[j]) != WeatherCard.Day(list[i])
      {
        CardDayOfForecastItem(days[i]);
        CardDayOfForecastItem(days[j]);
      }
    }
    AllFirstIndices(list, |list|);
  }

  /** When every item is first of its day, the first positions are all positions. */
  lemma {:induction false} AllFirstIndices(list: seq<ForecastItem>, n: nat)
    requires n <= |list|
    requires forall i :: 0 <= i < |list| ==> WeatherCard.IsFirstOfDay(list, i)
    ensures |WeatherCard.FirstIndices(list, n)| == n
    ensures forall k :: 0 <= k < n ==> WeatherCard.FirstIndices(list, n)[k] == k
  {
    if n > 0 {
      AllFirstIndices(list, n - 1);
    }
  }

  /** An hour is shown when its epoch is known and not in the past. */
  predicate Upcoming(h: UpHour, nowEpoch: int) {
    h.timeEpoch.Some? && h.timeEpoch.value >= nowEpoch
  }

  function HourlyItemOf(h: UpHour): HourlyItem
    requires h.timeEpoch.Some?
  {
    HourlyItem(
      h.timeEpoch.value,
      h.time,
      h.tempC.GetOr(0.0),
      h.feelslikeC.GetOr(0.0),
      h.humidity.GetOr(0.0),
      RoundTenth(h.windKph.GetOr(0.0) / 3.6),
      ConditionOf(h.condition))
  }

  /** The `hour` arrays of the days, one after the other. */
  function AllHours(days: seq<UpDay>): seq<UpHour> {
    if days == [] then []
    else AllHours(days[..|days| - 1]) + days[|days| - 1].hour.GetOr([])
  }

  /** The state of `allHours` after the loop has seen `hours`: each upcoming hour is pushed while fewer than 24 are held. */
  function Window(hours: seq<UpHour>, nowEpoch: int): (w: seq<HourlyItem>)
    ensures |w| <= MAX_HOURS
  {
    if hours == [] then []
    else
      var w := Window(hours[..|hours| - 1], nowEpoch);
      var h := hours[|hours| - 1];
      if Upcoming(h, nowEpoch) && |w| < MAX_HOURS then w + [HourlyItemOf(h)] else w
  }

  /** Every upcoming hour, in order: the reference the window is a prefix of. */
  function UpcomingHours(hours: seq<UpHour>, nowEpoch: int): (r: seq<HourlyItem>)
    ensures forall i :: 0 <= i < |r| ==> r[i].dt >= nowEpoch
  {
    if hours == [] then []
    else
      var h := hours[|hours| - 1];
      UpcomingHours(hours[..|hours| - 1], nowEpoch) + (if Upcoming(h, nowEpoch) then [HourlyItemOf(h)] else [])
  }

  /** The hourly list is the first 24 upcoming hours in day-then-hour order. */
  lemma {:induction false} WindowIsFirstUpcoming(hours: seq<UpHour>, nowEpoch: int)
    ensures var u := UpcomingHours(hours, nowEpoch);
            Window(hours, nowEpoch) == u[..if |u| < MAX_HOURS then |u| else MAX_HOURS]
  {
    if hours != [] {
      WindowIsFirstUpcoming(hours[..|hours| - 1], nowEpoch);
    }
  }

  /** No hour in the window is in the past, and there are at most 24. */
  lemma WindowUpcoming(hours: seq<UpHour>, nowEpoch: int)
    ensures var w := Window(hours, nowEpoch);
            |w| <= MAX_HOURS && forall i :: 0 <= i < |w| ==> w[i].dt >= nowEpoch
  {
    WindowIsFirstUpcoming(hours, nowEpoch);
  }

  /** One more hour of the current day: the window grows by it exactly when it is upcoming and there is room. */
  lemma WindowStep(seen: seq<UpHour>, dayHours: seq<UpHour>, j: nat, nowEpoch: int)
    requires j < |dayHours|
    ensures var w := Window(seen + dayHours[..j], nowEpoch);
            var h := dayHours[j];
            Window(seen + dayHours[..j + 1], nowEpoch) ==
              if Upcoming(h, nowEpoch) && |w| < MAX_HOURS then w + [HourlyItemOf(h)] else w
  {
    SnocSlice(seen, dayHours, j);
    WindowSnoc(seen + dayHours[..j], dayHours[j], nowEpoch);
  }

  lemma WindowSnoc(hours: seq<UpHour>, h: UpHour, nowEpoch: int)
    ensures var w := Window(hours, nowEpoch);
            Window(hours + [h], nowEpoch) == if Upcoming(h, nowEpoch) && |w| < MAX_HOURS then w + [HourlyItemOf(h)] else w
  {
    assert (hours + [h])[..|hours|] == hours;
  }

  lemma SnocSlice(seen: seq<UpHour>, xs: seq<UpHour>, j: nat)
    requires j < |xs|
    ensures seen + xs[..j + 1] == (seen + xs[..j]) + [xs[j]]
  {
    assert xs[..j + 1] == xs[..j] + [xs[j]];
  }

  /** The inner `for`: one day's hours pushed into `allHours`. */
  method PushDayHours(allHours: seq<HourlyItem>, ghost seen: seq<UpHour>, dayHours: seq<UpHour>, nowEpoch: int)
    returns (next: seq<HourlyItem>)
    requires allHours == Window(seen, nowEpoch)
    ensures next == Window(seen + dayHours, nowEpoch)
  {
    next := allHours;
    var j := 0;
    assert seen + dayHours[..0] == seen;
    while j < |dayHours|
      invariant 0 <= j <= |dayHours|
      invariant next == Window(seen + dayHours[..j], nowEpoch)
    {
      var h := dayHours[j];
      WindowStep(seen, dayHours, j, nowEpoch);
      if h.timeEpoch.Some? && h.timeEpoch.value >= nowEpoch && |next| < MAX_HOURS {
        next := next + [HourlyItemOf(h)];
      }
      j := j + 1;
    }
    assert dayHours[..|dayHours|] == dayHours;
  }

  /** The nested `for` loops filling `allHours`. */
  method CollectHours(days: seq<UpDay>, nowEpoch: int) returns (allHours: seq<HourlyItem>)
    ensures allHours == Window(AllHours(days), nowEpoch)
  {
    allHours := [];
    var d := 0;
    while d < |days|
      invariant 0 <= d <= |days|
      invariant allHours == Window(AllHours(days[..d]), nowEpoch)
    {
      assert days[..d + 1][..d] == days[..d];
      allHours := PushDayHours(allHours, AllHours(days[..d]), days[d].hour.GetOr([]), nowEpoch);
      d := d + 1;
    }
    assert days[..|days|] == days;
  }

  /** One alert with its fallbacks (`??`: only a missing field is replaced). */
  function AlertOf(a: UpAlert): (r: Alert)
    ensures r.headline == (if a.headline.Some? then a.headline.value
                           else if a.event.Some? then a.event.value else "Предупреждение")
    ensures r.severity == a.severity.GetOr("Unknown")
    ensures r.event == a.event.GetOr("") && r.desc == a.desc.GetOr("")
    ensures r.effective == a.effective.GetOr("") && r.expires == a.expires.GetOr("")
  {
    Alert(
      a.headline.GetOr(a.event.GetOr("Предупреждение")),
      a.severity.GetOr("Unknown"),
      a.event.GetOr(""),
      a.desc.GetOr(""),
      a.effective.GetOr(""),
      a.expires.GetOr(""))
  }

  /** `rawAlerts.map(...)`: one alert per upstream alert, in order. */
  function Alerts(raw: seq<UpAlert>): (r: seq<Alert>)
    ensures |r| == |raw|
    ensures forall i :: 0 <= i < |raw| ==> r[i] == AlertOf(raw[i])
  {
    seq(|raw|, i requires 0 <= i < |raw| => AlertOf(raw[i]))
  }

  /** An alert with neither headline nor event gets the generic headline; an empty headline is kept. */
  lemma AlertHeadlineFallback(a: UpAlert)
    ensures a.headline.None? && a.event.None? ==> AlertOf(a).headline == "Предупреждение"
    ensures a.headline == Some("") ==> AlertOf(a).headline == ""
  {
  }

  /** `q`: the trimmed city when it is not blank, else `lat,lon` when both are given; `None` is the 400 answer. */
  function Query(city: Option<string>, lat: Option<string>, lon: Option<string>): (q: Option<string>)
    ensures city.Some? && Trim(city.value) != [] ==> q == Some(Trim(city.value))
    ensures (city.None? || Trim(city.value) == []) && lat.Some? && lon.Some? ==> q == Some(lat.value + "," + lon.value)
    ensures q.None? <==> (city.None? || Trim(city.value) == []) && (lat.None? || lon.None?)
  {
    if city.Some? && city.value != [] && Trim(city.value) != [] then Some(Trim(city.value))
    else if lat.Some? && lon.Some? then Some(lat.value + "," + lon.value)
    else None
  }

  /** The URL the route fetches for query `q`. */
  function ForecastUrl(apiKey: string, q: string): string {
    WEATHERAPI_BASE + "/forecast.json?key=" + apiKey + "&q=" + q + "&days=7&lang=ru&alerts=yes"
  }

  datatype WeatherReply =
    | KeyMissing500
    | NoLocation400
    | UpstreamError(status: int, error: string)
    | ServiceError500
    | WeatherOk(current: CurrentWeather, list: seq<ForecastItem>, cityName: string,
                hourly: seq<HourlyItem>, alerts: seq<Alert>)

  /** The answer built from a successful body; `hourly` is the loop's result. */
  function OkReply(data: UpData, hourly: seq<HourlyItem>): WeatherReply {
    WeatherOk(CurrentOf(data), ForecastList(data.forecastday.GetOr([])), data.locationName.GetOr("Unknown"),
              hourly, Alerts(data.alerts.GetOr([])))
  }

  /**
   * `GET`. `apiKey` is `WEATHERAPI_API_KEY`, `city`/`lat`/`lon` the search parameters,
   * `upstream` what fetching `fetched` produced and `nowEpoch` the clock in seconds.
   */
  method Get(apiKey: Option<string>, city: Option<string>, lat: Option<string>, lon: Option<string>,
             upstream: Upstream, nowEpoch: int)
    returns (reply: WeatherReply, fetched: Option<string>)
    ensures !Truthy(apiKey) ==> reply == KeyMissing500 && fetched.None?
    ensures Truthy(apiKey) && Query(city, lat, lon).None? ==> reply == NoLocation400 && fetched.None?
    ensures Truthy(apiKey) && Query(city, lat, lon).Some? ==>
              fetched == Some(ForecastUrl(apiKey.value, Query(city, lat, lon).value))
    ensures fetched.Some? && upstream.Unreachable? ==> reply == ServiceError500
    ensures fetched.Some? && upstream.HttpError? ==>
              reply == UpstreamError(upstream.status, Or(upstream.message, "Weather fetch failed"))
    ensures fetched.Some? && upstream.Body? ==>
              reply == OkReply(upstream.data, Window(AllHours(upstream.data.forecastday.GetOr([])), nowEpoch))
  {
    if !Truthy(apiKey) {
      return KeyMissing500, None;
    }
    var q := Query(city, lat, lon);
    if q.None? {
      return NoLocation400, None;
    }
    fetched := Some(ForecastUrl(apiKey.value, q.value));
    match upstream
    case Unreachable =>
      reply := ServiceError500;
    case HttpError(status, message) =>
      reply := UpstreamError(status, Or(message, "Weather fetch failed"));
    case Body(data) =>
      var hourly := CollectHours(data.forecastday.GetOr([]), nowEpoch);
      reply := OkReply(data, hourly);
  }
}
