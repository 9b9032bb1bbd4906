/**
 * `POST /api/weather-tips`: geocode the location, fetch a five-day forecast,
 * summarise it one line per day, ask the model for farming tips, and answer
 * with the forecast (labelled with the place's name) and the tips.
 */
module WeatherTipsRoute {
  import opened Outcomes
  import opened Strings
  import opened JsonValues
  import opened Http
  import opened Recovery

  const LocationNotFound := "Location not found."

  /** A stage of the handler: carry on with a value, or answer now. */
  datatype Step<+T> = Go(value: T) | Stop(resp: Response)

  // ---------------------------------------------------------------------------
  // Geocoding

  /** `!geoData.results || geoData.results.length === 0`. */
  predicate NotFound(results: Option<Json>) {
    !Truthy(results) || Length(results) == Ok(Some(JNum(0)))
  }

  /**
   * From the geocoding reply (its JSON, or the error fetching or reading it
   * threw) to the first result, the object destructured into
   * `{ latitude, longitude, name, country }`.
   */
  function Locate(geo: Result<Json, JsError>): Step<Json> {
    match geo
    case Err(e) => Stop(Caught(e))
    case Ok(geoData) =>
      match Get(Some(geoData), "results")
      case Err(e) => Stop(Caught(e))
      case Ok(results) =>
        if NotFound(results) then Stop(Response(400, ErrorJson(LocationNotFound)))
        else match At(results, 0)
          case Err(e) => Stop(Caught(e))
          case Ok(place) =>
            if Nullish(place) then Stop(Caught(DestructureError("latitude", "geoData.results[0]", place)))
            else Go(place.value)
  }

  // ---------------------------------------------------------------------------
  // The forecast summary

  /** The daily columns each summary line reads, in the order it reads them. */
  const Columns: seq<string> :=
    ["time", "temperature_2m_max", "temperature_2m_min", "precipitation_sum", "windspeed_10m_max", "weathercode"]

  /** `${forecast[column][i]}`. */
  function Cell(forecast: Option<Json>, column: string, i: nat): Result<string, JsError> {
    match Get(forecast, column)
    case Err(e) => Err(e)
    case Ok(col) =>
      match At(col, i)
      case Err(e) => Err(e)
      case Ok(v) => Ok(Display(v))
  }

  /** The cells of day `i`, left to right; the first read that throws wins. */
  function Cells(forecast: Option<Json>, columns: seq<string>, i: nat): (r: Result<seq<string>, JsError>)
    ensures r.Ok? ==> |r.value| == |columns|
    ensures r.Ok? ==> forall k :: 0 <= k < |columns| ==> Cell(forecast, columns[k], i) == Ok(r.value[k])
  {
    if columns == [] then Ok([])
    else match Cell(forecast, columns[0], i)
      case Err(e) => Err(e)
      case Ok(c) =>
        match Cells(forecast, columns[1..], i)
        case Err(e) => Err(e)
        case Ok(cs) =>
          assert forall k :: 1 <= k < |columns| ==> columns[k] == columns[1..][k - 1];
          Ok([c] + cs)
  }

  /** The text of one summary line, day `i` counted from 0. */
  function DayText(i: nat, c: seq<string>): string
    requires |c| == |Columns|
  {
    DayHead(i, c[0]) + (DayFields(c) + "\n")
  }

  /** The line's number and its date. */
  function DayHead(i: nat, date: string): string {
    "Day " + NatToString(i + 1) + " (" + date
  }

  /** The line's readings. */
  function DayFields(c: seq<string>): string
    requires |c| == |Columns|
  {
    "): Max Temp: " + c[1] + "°C, Min Temp: " + c[2] + "°C, Precipitation: " + c[3]
    + "mm, Max Wind: " + c[4] + " km/h, Weather Code: " + c[5]
  }

  function DayLine(forecast: Option<Json>, i: nat): Result<string, JsError> {
    match Cells(forecast, Columns, i)
    case Err(e) => Err(e)
    case Ok(c) => Ok(DayText(i, c))
  }

  /** Producing the text of day `i`, or the error a read throws. */
  type LineOf = nat -> Result<string, JsError>

  /** The loop's output: the lines of rounds `0 .. n - 1` appended, or the first error. */
  function Lines(line: LineOf, n: nat): Result<string, JsError>
    decreases n
  {
    if n == 0 then Ok("")
    else match Lines(line, n - 1)
      case Err(e) => Err(e)
      case Ok(s) =>
        match line(n - 1)
        case Err(e) => Err(e)
        case Ok(l) => Ok(s + l)
  }

  function DayLineOf(forecast: Option<Json>): LineOf {
    (i: nat) => DayLine(forecast, i)
  }

  /** The lines of days `0 .. n - 1`, or the first error a read throws. */
  function DayLines(forecast: Option<Json>, n: nat): Result<string, JsError> {
    Lines(DayLineOf(forecast), n)
  }

  /**
   * The number of iterations of `for (i = 0; i < forecast.time.length; i++)`:
   * a numeric length counts, `true` compares as 1, anything else as nothing.
   */
  function LoopBound(len: Option<Json>): nat {
    match len
    case Some(JNum(k)) => if k > 0 then k else 0
    case Some(JBool(true)) => 1
    case _ => 0
  }

  /** The summary's first line. */
  function Header(name: string, country: string, firstDay: string): string {
    "5-day weather forecast for " + name + ", " + country + " starting " + firstDay + ":\n"
  }

  /** `name`, `country` and `"${name}, ${country}"` of the place. */
  function PlaceName(place: Json): string {
    Display(Member(place, "name")) + ", " + Display(Member(place, "country"))
  }

  /** What the summary's header and loop read before the first line: the forecast, its `time`, and the first date. */
  function Daily(weatherData: Json): (r: Result<(Option<Json>, Option<Json>, string), JsError>)
    ensures r.Ok? ==> !Nullish(r.value.1)
  {
    match Get(Some(weatherData), "daily")
    case Err(e) => Err(e)
    case Ok(forecast) =>
      match Get(forecast, "time")
      case Err(e) => Err(e)
      case Ok(time) =>
        match At(time, 0)
        case Err(e) => Err(e)
        case Ok(first) => Ok((forecast, time, Display(first)))
  }

  /** The whole summary. */
  function Summary(weatherData: Json, place: Json): Result<string, JsError> {
    match Daily(weatherData)
    case Err(e) => Err(e)
    case Ok((forecast, time, first)) =>
      match Length(time)
      case Err(e) => Err(e)
      case Ok(len) =>
        match DayLines(forecast, LoopBound(len))
        case Err(e) => Err(e)
        case Ok(lines) =>
          Ok(Header(Display(Member(place, "name")), Display(Member(place, "country")), first) + lines)
  }

  // ---------------------------------------------------------------------------
  // The prompt and the answer

  const TipsIntro := "You are an agricultural expert. Given this weather forecast, provide concise, actionable tips for farmers in these categories: Irrigation Planning, Wind Alerts, Sunlight Management, Rain Protection.\n"
  const TipsFormat := "\nRespond in JSON: { \"irrigation\": string, \"wind\": string, \"sunlight\": string, \"rain\": string }"

  function TipsPrompt(summary: string): string {
    TipsIntro + summary + TipsFormat
  }

  /** `weatherData.location_name = "${name}, ${country}"`, on the object read back from the forecast. */
  function Labelled(weatherData: Json, place: Json): Json {
    match weatherData
    case JObj(fields) => JObj(SetField(fields, "location_name", JStr(PlaceName(place))))
    case other => other
  }

  /** `{ weather: weatherData, tips }`. */
  function Answer(weatherData: Json, place: Json, tips: Json): Json {
    JObj([("weather", Labelled(weatherData, place)), ("tips", tips)])
  }

  /**
   * Everything after the place is known: the forecast call, the summary, the
   * key check, the model call and the recovery of the tips. `calls` are the
   * calls already made.
   */
  function Continue(place: Json, weather: Result<Json, JsError>, apiKey: Option<string>, reply: Reply,
                    parse: Parser, calls: seq<Call>): (Response, seq<Call>)
  {
    var calls := calls + [Forecast(Display(Member(place, "latitude")), Display(Member(place, "longitude")))];
    match weather
    case Err(e) => (Caught(e), calls)
    case Ok(weatherData) =>
      match Summary(weatherData, place)
      case Err(e) => (Caught(e), calls)
      case Ok(summary) =>
        if KeyMissing(apiKey) then (Response(500, ErrorJson(KeyNotSet)), calls)
        else
          var calls := calls + [Generate(TipsPrompt(summary))];
          match reply
          case Unreachable(e) => (Caught(e), calls)
          case Rejected(t) => (Response(500, ErrorJson(t)), calls)
          case Answered(text) =>
            (Response(200, Answer(weatherData, place, WholeThenSpan(parse, CandidateText(text, "{}"), JObj([])))), calls)
  }

  /**
   * The handler as a function of the request and of the three replies:
   * geocoding, forecast and model. The method `Post` computes it.
   */
  function Handle(req: RequestBody, geo: Result<Json, JsError>, weather: Result<Json, JsError>,
                  apiKey: Option<string>, reply: Reply, parse: Parser): (Response, seq<Call>)
  {
    match req
    case Unreadable(e) => (Caught(e), [])
    case Parsed(body) =>
      if body == JNull then (Caught(DestructureNullError("location")), [])
      else
        var calls := [Geocode(Display(Member(body, "location")))];
        match Locate(geo)
        case Stop(resp) => (resp, calls)
        case Go(place) => Continue(place, weather, apiKey, reply, parse, calls)
  }

  /** The summary, built by the handler's loop over the days. */
  method BuildSummary(weatherData: Json, place: Json) returns (r: Result<string, JsError>)
    ensures r == Summary(weatherData, place)
  {
    var daily := Daily(weatherData);
    if daily.Err? {
      return Err(daily.error);
    }
    var forecast, time, first := daily.value.0, daily.value.1, daily.value.2;
    var summary := Header(Display(Member(place, "name")), Display(Member(place, "country")), first);
    ghost var header := summary;
    var len := Length(time);  // `time[0]` was read, so `time.length` does not throw
    var n := LoopBound(len.value);
    var i := 0;
    while i < n
      invariant 0 <= i <= n
      invariant DayLines(forecast, i).Ok?
      invariant summary == header + DayLines(forecast, i).value
    {
      var line := DayLine(forecast, i);
      if line.Err? {
        DayLinesStop(forecast, i, n);
        return Err(line.error);
      }
      ghost var done := DayLines(forecast, i).value;
      assert DayLines(forecast, i + 1) == Ok(done + line.value);
      AppendAssoc(header, done, line.value);
      summary := summary + line.value;
      i := i + 1;
    }
    assert DayLines(forecast, LoopBound(len.value)) == Ok(DayLines(forecast, i).value);
    return Ok(summary);
  }

  /** The handler. */
  method Post(req: RequestBody, geo: Result<Json, JsError>, weather: Result<Json, JsError>,
              apiKey: Option<string>, reply: Reply, parse: Parser)
    returns (resp: Response, calls: seq<Call>)
    ensures (resp, calls) == Handle(req, geo, weather, apiKey, reply, parse)
  {
    calls := [];
    if req.Unreadable? {
      resp := Caught(req.error);
      return;
    }
    var body := req.value;
    if body == JNull {
      resp := Caught(DestructureNullError("location"));
      return;
    }
    calls := [Geocode(Display(Member(body, "location")))];
    var located := Locate(geo);
    if located.Stop? {
      resp := located.resp;
      return;
    }
    var place := located.value;
    assert Handle(req, geo, weather, apiKey, reply, parse) == Continue(place, weather, apiKey, reply, parse, calls);
    calls := calls + [Forecast(Display(Member(place, "latitude")), Display(Member(place, "longitude")))];
    if weather.Err? {
      resp := Caught(weather.error);
      return;
    }
    var weatherData := weather.value;
    var summary := BuildSummary(weatherData, place);
    if summary.Err? {
      resp := Caught(summary.error);
      return;
    }
    if KeyMissing(apiKey) {
      resp := Response(500, ErrorJson(KeyNotSet));
      return;
    }
    calls := calls + [Generate(TipsPrompt(summary.value))];
    match reply {
      case Unreachable(e) =>
        resp := Caught(e);
      case Rejected(t) =>
        resp := Response(500, ErrorJson(t));
      case Answered(text) =>
        var aiText := CandidateText(text, "{}");
        var tips := WholeThenSpan(parse, aiText, JObj([]));
        if weatherData.JObj? {
          weatherData := JObj(SetField(weatherData.fields, "location_name", JStr(PlaceName(place))));
        }
        resp := Response(200, JObj([("weather", weatherData), ("tips", tips)]));
    }
  }

  // ---------------------------------------------------------------------------
  // Properties of the summary

  lemma AppendAssoc(a: string, b: string, c: string)
    ensures (a + b) + c == a + (b + c)
  {
  }

  lemma {:induction false} LinesStop(line: LineOf, i: nat, n: nat)
    requires i < n
    requires Lines(line, i).Ok? && line(i).Err?
    ensures Lines(line, n) == Err(line(i).error)
    decreases n
  {
    if n > i + 1 {
      LinesStop(line, i, n - 1);
    }
  }

  lemma {:induction false} LinesPrefix(line: LineOf, m: nat, n: nat)
    requires m <= n && Lines(line, n).Ok?
    ensures Lines(line, m).Ok?
    ensures Lines(line, m).value <= Lines(line, n).value
    decreases n
  {
    if m < n {
      LinesPrefix(line, m, n - 1);
    }
  }

  /** A read that throws on day `i` ends the summary with that error, however many days follow. */
  lemma DayLinesStop(forecast: Option<Json>, i: nat, n: nat)
    requires i < n
    requires DayLines(forecast, i).Ok? && DayLine(forecast, i).Err?
    ensures DayLines(forecast, n) == Err(DayLine(forecast, i).error)
  {
    LinesStop(DayLineOf(forecast), i, n);
  }

  /** An error-free summary of `n` days has an error-free summary of each shorter prefix, which it extends. */
  lemma DayLinesPrefix(forecast: Option<Json>, m: nat, n: nat)
    requires m <= n && DayLines(forecast, n).Ok?
    ensures DayLines(forecast, m).Ok?
    ensures DayLines(forecast, m).value <= DayLines(forecast, n).value
  {
    LinesPrefix(DayLineOf(forecast), m, n);
  }

  /** Day `i`'s line is numbered `i + 1`, names that day's date, and ends the line. */
  lemma DayLineShape(forecast: Option<Json>, i: nat)
    requires DayLine(forecast, i).Ok?
    ensures var l := DayLine(forecast, i).value;
            && Cell(forecast, "time", i).Ok?
            && ("Day " + NatToString(i + 1) + " (" + Cell(forecast, "time", i).value) <= l
            && l[|l| - 1] == '\n'
  {
    var c := Cells(forecast, Columns, i).value;
    assert Cell(forecast, Columns[0], i) == Ok(c[0]);
    var head, rest := DayHead(i, c[0]), DayFields(c) + "\n";
    assert (head + rest)[..|head|] == head;
  }

  /** The lines of the days come in order: day `i`'s line follows those of days `0 .. i - 1`. */
  lemma DayLineAt(forecast: Option<Json>, n: nat, i: nat)
    requires i < n && DayLines(forecast, n).Ok?
    ensures DayLines(forecast, i).Ok? && DayLine(forecast, i).Ok?
    ensures OccursAt(DayLines(forecast, n).value, DayLine(forecast, i).value, |DayLines(forecast, i).value|)
  {
    DayLinesPrefix(forecast, i + 1, n);
    var all, before, line := DayLines(forecast, n).value, DayLines(forecast, i).value, DayLine(forecast, i).value;
    assert DayLines(forecast, i + 1).value == before + line;
    PrefixSlice(all, before, line);
  }

  lemma PrefixSlice(all: string, before: string, line: string)
    requires before + line <= all
    ensures OccursAt(all, line, |before|)
  {
    assert all[..|before| + |line|] == before + line;
    assert all[|before|..|before| + |line|] == (before + line)[|before|..];
  }

  /** A string with no line break in it. */
  ghost predicate Plain(s: string) {
    forall k :: 0 <= k < |s| ==> s[k] != '\n'
  }

  /** Every cell of days `0 .. n - 1` that can be read is free of line breaks. */
  ghost predicate PlainCells(forecast: Option<Json>, n: nat) {
    forall i: nat, k :: i < n && 0 <= k < |Columns| && Cell(forecast, Columns[k], i).Ok? ==>
      Plain(Cell(forecast, Columns[k], i).value)
  }

  lemma CountLine(x: string)
    requires Plain(x)
    ensures Count(x + "\n", '\n') == 1
  {
    CountAbsent(x, '\n');
    assert (x + "\n")[..|x|] == x;
  }

  lemma PlainAppend(a: string, b: string)
    requires Plain(a) && Plain(b)
    ensures Plain(a + b)
  {
  }

  lemma PlainDayParts(i: nat, c: seq<string>)
    requires |c| == |Columns|
    requires forall k :: 0 <= k < |c| ==> Plain(c[k])
    ensures Plain(DayHead(i, c[0])) && Plain(DayFields(c))
  {
    PlainAppend("Day ", NatToString(i + 1));
    PlainAppend("Day " + NatToString(i + 1), " (");
    PlainAppend("Day " + NatToString(i + 1) + " (", c[0]);
    var x := "): Max Temp: ";
    PlainAppend(x, c[1]);
    x := x + c[1];
    PlainAppend(x, "°C, Min Temp: ");
    x := x + "°C, Min Temp: ";
    PlainAppend(x, c[2]);
    x := x + c[2];
    PlainAppend(x, "°C, Precipitation: ");
    x := x + "°C, Precipitation: ";
    PlainAppend(x, c[3]);
    x := x + c[3];
    PlainAppend(x, "mm, Max Wind: ");
    x := x + "mm, Max Wind: ";
    PlainAppend(x, c[4]);
    x := x + c[4];
    PlainAppend(x, " km/h, Weather Code: ");
    x := x + " km/h, Weather Code: ";
    PlainAppend(x, c[5]);
  }

  /** A day's text is exactly one line when its cells are. */
  lemma DayTextOneLine(i: nat, c: seq<string>)
    requires |c| == |Columns|
    requires forall k :: 0 <= k < |c| ==> Plain(c[k])
    ensures Count(DayText(i, c), '\n') == 1
  {
    PlainDayParts(i, c);
    CountAbsent(DayHead(i, c[0]), '\n');
    CountLine(DayFields(c));
    CountAppend(DayHead(i, c[0]), DayFields(c) + "\n", '\n');
  }

  lemma {:induction false} LinesCount(line: LineOf, n: nat)
    requires Lines(line, n).Ok?
    requires forall i: nat :: i < n && line(i).Ok? ==> Count(line(i).value, '\n') == 1
    ensures Count(Lines(line, n).value, '\n') == n
    decreases n
  {
    if n > 0 {
      LinesCount(line, n - 1);
      CountAppend(Lines(line, n - 1).value, line(n - 1).value, '\n');
    }
  }

  /** `n` days give exactly `n` lines when no cell holds a line break. */
  lemma DayLinesCount(forecast: Option<Json>, n: nat)
    requires DayLines(forecast, n).Ok? && PlainCells(forecast, n)
    ensures Count(DayLines(forecast, n).value, '\n') == n
  {
    forall i: nat | i < n && DayLine(forecast, i).Ok? ensures Count(DayLine(forecast, i).value, '\n') == 1 {
      var c := Cells(forecast, Columns, i).value;
      forall k | 0 <= k < |c| ensures Plain(c[k]) {
        assert Cell(forecast, Columns[k], i) == Ok(c[k]);
      }
      DayTextOneLine(i, c);
    }
    LinesCount(DayLineOf(forecast), n);
  }

  /**
   * The summary is the header line, naming the place and the first date,
   * followed by one line per entry of `time`: with no line break inside the
   * place's name, its country or any cell, it has exactly that many lines
   * plus one.
   */
  lemma SummaryLines(weatherData: Json, place: Json)
    requires Summary(weatherData, place).Ok?
    ensures Daily(weatherData).Ok?
    ensures var (forecast, time, first) := Daily(weatherData).value;
            var name, country := Display(Member(place, "name")), Display(Member(place, "country"));
            var s := Summary(weatherData, place).value;
            var n := LoopBound(Length(time).value);
            && Header(name, country, first) <= s
            && DayLines(forecast, n).Ok?
            && (Plain(name) && Plain(country) && Plain(first) && PlainCells(forecast, n) ==>
                  Count(s, '\n') == n + 1)
            && (forall items :: time == Some(JArr(items)) ==> n == |items|)
  {
    var (forecast, time, first) := Daily(weatherData).value;
    var name, country := Display(Member(place, "name")), Display(Member(place, "country"));
    var s := Summary(weatherData, place).value;
    var n := LoopBound(Length(time).value);
    var h := Header(name, country, first);
    var lines := DayLines(forecast, n).value;
    assert s == h + lines;
    assert s[..|h|] == h;
    if Plain(name) && Plain(country) && Plain(first) && PlainCells(forecast, n) {
      HeaderOneLine(name, country, first);
      DayLinesCount(forecast, n);
      CountAppend(h, lines, '\n');
    }
  }

  /** The header is exactly one line when the place and the date are. */
  lemma HeaderOneLine(name: string, country: string, first: string)
    requires Plain(name) && Plain(country) && Plain(first)
    ensures Count(Header(name, country, first), '\n') == 1
  {
    var x := "5-day weather forecast for " + name;
    PlainAppend("5-day weather forecast for ", name);
    PlainAppend(x, ", ");
    x := x + ", ";
    PlainAppend(x, country);
    x := x + country;
    PlainAppend(x, " starting ");
    x := x + " starting ";
    PlainAppend(x, first);
    x := x + first;
    PlainAppend(x, ":");
    AppendAssoc(x, ":", "\n");
    assert Header(name, country, first) == (x + ":") + "\n";
    CountLine(x + ":");
  }

  // ---------------------------------------------------------------------------
  // Properties of the handler

  /** A missing or empty list of results answers 400 "Location not found.", and only then. */
  lemma NotFoundIff(geo: Result<Json, JsError>)
    ensures (Locate(geo).Stop? && Locate(geo).resp.status == 400) <==>
              (geo.Ok? && Get(Some(geo.value), "results").Ok? && NotFound(Get(Some(geo.value), "results").value))
    ensures geo.Ok? && Get(Some(geo.value), "results") == Ok(Some(JArr([]))) ==>
              Locate(geo) == Stop(Response(400, ErrorJson(LocationNotFound)))
  {
  }

  /** Then no forecast is fetched and the model is not called. */
  lemma NotFoundStopsEarly(body: Json, geo: Result<Json, JsError>, weather: Result<Json, JsError>,
                           apiKey: Option<string>, reply: Reply, parse: Parser)
    requires body != JNull
    requires geo.Ok? && Get(Some(geo.value), "results").Ok? && NotFound(Get(Some(geo.value), "results").value)
    ensures Handle(Parsed(body), geo, weather, apiKey, reply, parse) ==
              (Response(400, ErrorJson(LocationNotFound)), [Geocode(Display(Member(body, "location")))])
  {
  }

  /** Only the first result counts: replies that agree on it are handled alike. */
  lemma OnlyFirstResult(g1: Json, g2: Json, a: seq<Json>, b: seq<Json>)
    requires Get(Some(g1), "results") == Ok(Some(JArr(a))) && a != []
    requires Get(Some(g2), "results") == Ok(Some(JArr(b))) && b != []
    requires a[0] == b[0]
    ensures Locate(Ok(g1)) == Locate(Ok(g2))
    ensures forall req, weather, apiKey, reply, parse ::
              Handle(req, Ok(g1), weather, apiKey, reply, parse) == Handle(req, Ok(g2), weather, apiKey, reply, parse)
  {
  }

  /**
   * The key is checked only once the place is found and the forecast read:
   * without one, both lookups have been made, the answer is 500 and the model
   * is not called.
   */
  lemma KeyCheckedLate(body: Json, geo: Result<Json, JsError>, weatherData: Json, apiKey: Option<string>,
                       reply: Reply, parse: Parser)
    requires body != JNull && Locate(geo).Go? && Summary(weatherData, Locate(geo).value).Ok?
    requires KeyMissing(apiKey)
    ensures var place := Locate(geo).value;
            Handle(Parsed(body), geo, Ok(weatherData), apiKey, reply, parse) ==
              (Response(500, ErrorJson(KeyNotSet)),
               [Geocode(Display(Member(body, "location"))),
                Forecast(Display(Member(place, "latitude")), Display(Member(place, "longitude")))])
  {
    var place := Locate(geo).value;
    var geocode := [Geocode(Display(Member(body, "location")))];
    assert Handle(Parsed(body), geo, Ok(weatherData), apiKey, reply, parse) ==
             Continue(place, Ok(weatherData), apiKey, reply, parse, geocode);
    assert geocode + [Forecast(Display(Member(place, "latitude")), Display(Member(place, "longitude")))] ==
             [Geocode(Display(Member(body, "location"))),
              Forecast(Display(Member(place, "latitude")), Display(Member(place, "longitude")))];
  }

  /** Without a key the model is never called. */
  lemma NoKeyNoModel(req: RequestBody, geo: Result<Json, JsError>, weather: Result<Json, JsError>,
                     apiKey: Option<string>, reply: Reply, parse: Parser)
    requires KeyMissing(apiKey)
    ensures forall c :: c in Handle(req, geo, weather, apiKey, reply, parse).1 ==> !c.Generate?
  {
  }

  /** A forecast the summary can be read from is an object. */
  lemma DailyNeedsObject(weatherData: Json)
    requires Daily(weatherData).Ok?
    ensures weatherData.JObj?
  {
    var forecast := Get(Some(weatherData), "daily").value;
    assert !Nullish(forecast);
  }

  /** The forecast sent back carries `location_name`, and every other member as received. */
  lemma LabelledMembers(weatherData: Json, place: Json, key: string)
    requires weatherData.JObj?
    ensures Member(Labelled(weatherData, place), "location_name") == Some(JStr(PlaceName(place)))
    ensures key != "location_name" ==> Member(Labelled(weatherData, place), key) == Member(weatherData, key)
  {
    SetFieldLookup(weatherData.fields, "location_name", JStr(PlaceName(place)), key);
  }

  /**
   * A 200 answer comes only from a model reply, after all three calls, and is
   * `{ weather, tips }` with the labelled forecast object and the recovered tips.
   */
  lemma SuccessShape(req: RequestBody, geo: Result<Json, JsError>, weather: Result<Json, JsError>,
                     apiKey: Option<string>, reply: Reply, parse: Parser)
    requires Handle(req, geo, weather, apiKey, reply, parse).0.status == 200
    ensures Locate(geo).Go? && weather.Ok? && weather.value.JObj? && reply.Answered?
    ensures var (resp, calls) := Handle(req, geo, weather, apiKey, reply, parse);
            && |calls| == 3 && calls[0].Geocode? && calls[1].Forecast? && calls[2].Generate?
            && resp.body == Answer(weather.value, Locate(geo).value,
                                   WholeThenSpan(parse, CandidateText(reply.text, "{}"), JObj([])))
  {
    match req
    case Unreadable(_) =>
    case Parsed(body) =>
      if body != JNull && Locate(geo).Go? && weather.Ok? {
        if Summary(weather.value, Locate(geo).value).Ok? {
          DailyNeedsObject(weather.value);
        }
      }
  }
}
