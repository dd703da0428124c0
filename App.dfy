/**
 * The bot's dialogue: the `WeatherForm` states, the handlers that fill the
 * per-chat session one answer at a time, and `process_days`, which turns a
 * completed session into chart photos, a route-link message and a forecast
 * summary before finishing the session.
 *
 * `Transition` states what one incoming update does to a session and which
 * replies it produces; the class `WeatherChat` holds one chat's state and is
 * proved to behave as `Transition` says.
 */
module App {
  import opened Wrappers
  import opened PyText
  import opened OrderedMaps
  import opened WeatherService

  // ---------------------------------------------------------------- the form

  /** `WeatherForm`'s states in declaration order; `Idle` is aiogram's "no state". */
  datatype FormState = Idle | StartPoint | EndPoint | IntermediatePoints | Days

  /** `WeatherForm.next()`: the next declared state; from no state the first one, after the last one no state. */
  function Next(s: FormState): FormState {
    match s
    case Idle => StartPoint
    case StartPoint => EndPoint
    case EndPoint => IntermediatePoints
    case IntermediatePoints => Days
    case Days => Idle
  }

  /** The chat's FSM data (`state.update_data`); a missing key is `None`. */
  datatype SessionData = SessionData(
    startPoint: Option<string>,
    endPoint: Option<string>,
    intermediatePoints: Option<seq<string>>,
    days: Option<nat>)

  const NoData := SessionData(None, None, None, None)

  datatype Session = Session(state: FormState, data: SessionData)

  /** An incoming update: a text message, or the data of a pressed inline button. */
  datatype Update = TextMessage(text: string) | Callback(data: string)

  /** The external services `process_days` calls. */
  datatype Services = Services(forecast: ForecastApi, geocoder: Geocoder, router: Router)

  datatype Chart = TemperatureChart | PrecipitationChart | WindChart

  datatype Button = Button(caption: string, callbackData: string)

  /** What the bot sends: a text, a text with inline buttons, or one chart image of a location. */
  datatype Reply = Text(body: string) | Keyboard(prompt: string, buttons: seq<Button>) | Photo(location: string, chart: Chart)

  const StartPrompt := "Введите начальную точку маршрута:"
  const EndPrompt := "Введите конечную точку маршрута:"
  const WaypointsPrompt := "Введите промежуточные точки маршрута (через запятую, если их несколько, или введите 'нет', если их нет):"
  const DaysPrompt := "Выберите временной интервал прогноза:"
  const DayButtons := [Button("1 день", "1"), Button("3 дня", "3"), Button("5 дней", "5")]
  const NoWaypoints := "нет"
  const SummaryHeader := "Прогноз погоды для маршрута:\n"
  const RouteLinkPrefix := "Ссылка на маршрут: "
  const CoordinatesUnavailable := "Не удалось получить координаты для отображения маршрута."
  const RouteErrorPrefix := "Ошибка при создании ссылки на маршрут: "
  const ForecastErrorPrefix := "Ошибка при получении прогноза: "

  // ---------------------------------------------------------------- commands

  /** The text before the first whitespace character. */
  function FirstWord(s: string): string {
    if s == [] || IsSpace(s[0]) then [] else [s[0]] + FirstWord(s[1..])
  }

  /** The text before the first `c`. */
  function Before(s: string, c: char): string {
    if s == [] || s[0] == c then [] else [s[0]] + Before(s[1..], c)
  }

  /**
   * aiogram's `commands=['weather']` filter: the first word of the message is
   * `/` followed by `weather` in any letter case, optionally with `@` and a
   * bot name after it.
   */
  predicate IsWeatherCommand(text: string) {
    var word := FirstWord(StripLeft(text));
    |word| > 0 && word[0] == '/' && Lower(Before(word[1..], '@')) == "weather"
  }

  /**
   * The filter accepts a message whose first word, after any leading
   * whitespace, is `/` and a name exactly when the name lower-cases to
   * `weather`.
   */
  lemma WeatherCommandIff(pre: string, name: string, rest: string)
    requires AllSpace(pre)
    requires forall i :: 0 <= i < |name| ==> !IsSpace(name[i]) && name[i] != '@'
    requires rest == [] || IsSpace(rest[0])
    ensures IsWeatherCommand(pre + "/" + name + rest) <==> Lower(name) == "weather"
  {
    var word := "/" + name;
    assert pre + "/" + name + rest == pre + (word + rest);
    assert word[1..] == name + [];
    BeforeOf(name, '@', []);
    CommandWord(pre, word, rest);
  }

  /** The same with an `@` mention of a bot after the name. */
  lemma MentionedWeatherCommandIff(pre: string, name: string, mention: string, rest: string)
    requires AllSpace(pre)
    requires forall i :: 0 <= i < |name| ==> !IsSpace(name[i]) && name[i] != '@'
    requires forall i :: 0 <= i < |mention| ==> !IsSpace(mention[i])
    requires rest == [] || IsSpace(rest[0])
    ensures IsWeatherCommand(pre + "/" + name + "@" + mention + rest) <==> Lower(name) == "weather"
  {
    var word := "/" + name + "@" + mention;
    assert pre + "/" + name + "@" + mention + rest == pre + (word + rest);
    assert word[1..] == name + ("@" + mention);
    BeforeOf(name, '@', "@" + mention);
    CommandWord(pre, word, rest);
  }

  /** The filter looks at the first word only. */
  lemma CommandWord(pre: string, word: string, rest: string)
    requires AllSpace(pre) && word != [] && word[0] == '/'
    requires forall i :: 0 <= i < |word| ==> !IsSpace(word[i])
    requires rest == [] || IsSpace(rest[0])
    ensures IsWeatherCommand(pre + (word + rest)) <==> Lower(Before(word[1..], '@')) == "weather"
  {
    StripLeftOfPadded(pre, word + rest);
    assert (word + rest)[0] == '/';
    FirstWordOf(word, rest);
  }

  /** The first word of a word followed by whitespace or nothing is that word. */
  lemma {:induction false} FirstWordOf(word: string, rest: string)
    requires forall i :: 0 <= i < |word| ==> !IsSpace(word[i])
    requires rest == [] || IsSpace(rest[0])
    ensures FirstWord(word + rest) == word
  {
    if word != [] {
      assert (word + rest)[1..] == word[1..] + rest;
      FirstWordOf(word[1..], rest);
    } else {
      assert word + rest == rest;
    }
  }

  /** The text before `c` in a text without `c` followed by `c` or nothing is that text. */
  lemma {:induction false} BeforeOf(s: string, c: char, rest: string)
    requires c !in s
    requires rest == [] || rest[0] == c
    ensures Before(s + rest, c) == s
  {
    if s != [] {
      assert (s + rest)[1..] == s[1..] + rest;
      BeforeOf(s[1..], c, rest);
    } else {
      assert s + rest == rest;
    }
  }

  // ---------------------------------------------------------------- waypoints

  /** A stored place name: non-empty, with no surrounding whitespace, title-cased. */
  predicate IsPlaceName(name: string) {
    name != [] && Trimmed(name) && IsTitleCased(name)
  }

  /** The name one segment contributes: none when it is blank. */
  function WaypointName(segment: string): (names: seq<string>)
    ensures |names| <= 1
  {
    var p := Strip(segment);
    if p != [] then [FormatCityName(p)] else []
  }

  /** `[format_city_name(p.strip()) for p in segments if p.strip()]`. */
  function WaypointNames(segments: seq<string>): (names: seq<string>)
    ensures |names| <= |segments|
  {
    if segments == [] then []
    else WaypointName(segments[0]) + WaypointNames(segments[1..])
  }

  /** Every name is a place name. */
  lemma {:induction false} WaypointNamesValid(segments: seq<string>)
    ensures forall i :: 0 <= i < |WaypointNames(segments)| ==> IsPlaceName(WaypointNames(segments)[i])
  {
    if segments != [] {
      WaypointNamesValid(segments[1..]);
      var head, rest := WaypointName(segments[0]), WaypointNames(segments[1..]);
      assert WaypointNames(segments) == head + rest;
      forall i | 0 <= i < |head| ensures IsPlaceName(head[i]) {
        var p := Strip(segments[0]);
        assert head == [FormatCityName(p)];
      }
    }
  }

  /** The names keep the order of the segments they come from. */
  lemma {:induction false} WaypointNamesAppend(a: seq<string>, b: seq<string>)
    ensures WaypointNames(a + b) == WaypointNames(a) + WaypointNames(b)
  {
    if a != [] {
      assert (a + b)[0] == a[0] && (a + b)[1..] == a[1..] + b;
      WaypointNamesAppend(a[1..], b);
      ConcatAssociates(WaypointName(a[0]), WaypointNames(a[1..]), WaypointNames(b));
    } else {
      assert a + b == b;
    }
  }

  lemma ConcatAssociates<T>(x: seq<T>, y: seq<T>, z: seq<T>)
    ensures x + (y + z) == (x + y) + z
  {
  }

  /** A segment yields a name exactly when it is not blank. */
  lemma {:induction false} WaypointNamesEmpty(segments: seq<string>)
    ensures WaypointNames(segments) == [] <==> forall s :: s in segments ==> Strip(s) == []
  {
    if segments != [] {
      var tail := segments[1..];
      WaypointNamesEmpty(tail);
      assert WaypointNames(segments) == WaypointName(segments[0]) + WaypointNames(tail);
      assert WaypointName(segments[0]) == [] <==> Strip(segments[0]) == [];
      assert forall s :: s in segments <==> s == segments[0] || s in tail;
    }
  }

  /** Names from comma-free segments hold no comma. */
  lemma {:induction false} WaypointNamesCommaFree(segments: seq<string>)
    requires forall s :: s in segments ==> ',' !in s
    ensures forall i :: 0 <= i < |WaypointNames(segments)| ==> ',' !in WaypointNames(segments)[i]
  {
    if segments != [] {
      assert forall s :: s in segments[1..] ==> s in segments;
      WaypointNamesCommaFree(segments[1..]);
      var p := Strip(segments[0]);
      assert segments[0] in segments;
      if p != [] && ',' in FormatCityName(p) {
        FormatCityNameKeepsUncased(p, ',');
      }
      assert forall i :: 0 <= i < |WaypointName(segments[0])| ==> ',' !in WaypointName(segments[0])[i];
    }
  }

  /**
   * `process_intermediate_points`' parsing: the stripped, lower-cased text is
   * either the word "нет" (no waypoints) or a comma-separated list whose
   * non-blank segments become formatted city names.
   */
  function ParseWaypoints(text: string): (points: seq<string>)
    ensures forall i :: 0 <= i < |points| ==> IsPlaceName(points[i]) && ',' !in points[i]
  {
    var lowered := Lower(Strip(text));
    if Lower(lowered) == NoWaypoints then []
    else
      WaypointNamesValid(Split(lowered, ','));
      WaypointNamesCommaFree(Split(lowered, ','));
      WaypointNames(Split(lowered, ','))
  }

  /**
   * No waypoints are stored exactly when the answer is "нет" in any letter
   * case, or has no non-blank segment; otherwise there is one name per
   * non-blank segment, never more names than segments.
   */
  lemma ParseWaypointsEmpty(text: string)
    ensures Lower(Strip(text)) == NoWaypoints ==> ParseWaypoints(text) == []
    ensures ParseWaypoints(text) == [] <==>
      || Lower(Strip(text)) == NoWaypoints
      || forall s :: s in Split(Lower(Strip(text)), ',') ==> Strip(s) == []
    ensures |ParseWaypoints(text)| <= |Split(Lower(Strip(text)), ',')|
  {
    var lowered := Lower(Strip(text));
    var lower2 := Lower(lowered);
    assert lower2 == lowered by {
      forall i | 0 <= i < |lowered| ensures lower2[i] == lowered[i] {
        CaseMappingAbsorbs(Strip(text)[i]);
      }
    }
    WaypointNamesEmpty(Split(lowered, ','));
  }

  // ---------------------------------------------------------------- the route

  /** `[start_point, *intermediate_points, end_point]`. */
  function Route(start: string, waypoints: seq<string>, end: string): (route: seq<string>)
    ensures |route| == |waypoints| + 2
    ensures route[0] == start && route[|route| - 1] == end && route[1..|route| - 1] == waypoints
  {
    [start] + waypoints + [end]
  }

  function RouteOf(d: SessionData): seq<string>
    requires d.startPoint.Some? && d.endPoint.Some? && d.intermediatePoints.Some?
  {
    Route(d.startPoint.value, d.intermediatePoints.value, d.endPoint.value)
  }

  // ---------------------------------------------------------------- the summary

  /** One line of the summary message, before rendering. */
  datatype SummaryLine =
    | LocationLine(location: string)
    | DateLine(date: string)
    | TemperatureLine(minimum: Num, maximum: Num)
    | PrecipitationLine(probability: Num)
    | WindLine(speed: Num)

  /** The text of one line, newline included. */
  function RenderLine(line: SummaryLine): string {
    match line
    case LocationLine(location) => "🌍 " + location + ":\n"
    case DateLine(date) => "📅 " + date + ":\n"
    case TemperatureLine(minimum, maximum) => "🌡️ Температура: " + minimum.text + "°C - " + maximum.text + "°C\n"
    case PrecipitationLine(probability) => "💧 Вероятность осадков: " + probability.text + "%\n"
    case WindLine(speed) => "💨 Скорость ветра: " + speed.text + " м/с\n"
  }

  /** The lines concatenated. */
  function Render(lines: seq<SummaryLine>): string {
    if lines == [] then "" else Render(lines[..|lines| - 1]) + RenderLine(lines[|lines| - 1])
  }

  /** The four lines of one date. */
  function DateLines(date: string, r: DayRecord): seq<SummaryLine> {
    [DateLine(date), TemperatureLine(r.temperatureMin, r.temperatureMax),
     PrecipitationLine(r.precipitationProbability), WindLine(r.windSpeed)]
  }

  /**
   * The lines for the dates `ds` of one location. (A date without a record,
   * which a well-formed map never has, would contribute nothing.)
   */
  function DaysLines(dates: DateMap, ds: seq<string>): seq<SummaryLine> {
    if ds == [] then []
    else
      var date := ds[|ds| - 1];
      DaysLines(dates, ds[..|ds| - 1]) + (if date in dates.items then DateLines(date, dates.items[date]) else [])
  }

  ghost predicate WellFormed(f: Forecast) {
    f.Valid() && forall k :: k in f.items ==> f.items[k].Valid()
  }

  /** The blocks for the locations `ls`: a heading line, then the lines of each date. */
  function BlocksLines(f: Forecast, ls: seq<string>): seq<SummaryLine> {
    if ls == [] then []
    else
      var location := ls[|ls| - 1];
      var days := if location in f.items then DaysLines(f.items[location], f.items[location].keys) else [];
      BlocksLines(f, ls[..|ls| - 1]) + [LocationLine(location)] + days
  }

  /** The lines of the summary message for a forecast. */
  function SummaryLines(f: Forecast): seq<SummaryLine> {
    BlocksLines(f, f.keys)
  }

  /** The summary message `response`. */
  function SummaryText(f: Forecast): string {
    SummaryHeader + Render(SummaryLines(f))
  }

  /** The locations named by the heading lines, in order. */
  function Headings(lines: seq<SummaryLine>): seq<string> {
    if lines == [] then []
    else
      var last := lines[|lines| - 1];
      Headings(lines[..|lines| - 1]) + (if last.LocationLine? then [last.location] else [])
  }

  lemma {:induction false} HeadingsAppend(a: seq<SummaryLine>, b: seq<SummaryLine>)
    ensures Headings(a + b) == Headings(a) + Headings(b)
  {
    if b == [] {
      assert a + b == a;
    } else {
      assert (a + b)[..|a + b| - 1] == a + b[..|b| - 1];
      HeadingsAppend(a, b[..|b| - 1]);
    }
  }

  lemma {:induction false} DaysHaveNoHeadings(dates: DateMap, ds: seq<string>)
    ensures Headings(DaysLines(dates, ds)) == []
  {
    if ds != [] {
      var d := ds[|ds| - 1];
      var tail := if d in dates.items then DateLines(d, dates.items[d]) else [];
      DaysHaveNoHeadings(dates, ds[..|ds| - 1]);
      HeadingsAppend(DaysLines(dates, ds[..|ds| - 1]), tail);
      NoHeadings(tail);
    }
  }

  lemma {:induction false} NoHeadings(lines: seq<SummaryLine>)
    requires forall i :: 0 <= i < |lines| ==> !lines[i].LocationLine?
    ensures Headings(lines) == []
  {
    if lines != [] {
      NoHeadings(lines[..|lines| - 1]);
    }
  }

  /** One more location adds its heading and its dates. */
  lemma BlocksLinesStep(f: Forecast, ls: seq<string>, i: nat)
    requires i < |ls| && ls[i] in f.items
    ensures BlocksLines(f, ls[..i + 1])
         == BlocksLines(f, ls[..i]) + [LocationLine(ls[i])] + DaysLines(f.items[ls[i]], f.items[ls[i]].keys)
  {
    assert ls[..i + 1][..i] == ls[..i];
  }

  lemma {:induction false} BlocksHeadings(f: Forecast, ls: seq<string>)
    ensures Headings(BlocksLines(f, ls)) == ls
  {
    if ls != [] {
      var init, location := ls[..|ls| - 1], ls[|ls| - 1];
      var days := if location in f.items then DaysLines(f.items[location], f.items[location].keys) else [];
      BlocksHeadings(f, init);
      if location in f.items {
        DaysHaveNoHeadings(f.items[location], f.items[location].keys);
      }
      HeadingThenNone(BlocksLines(f, init), location, days);
      assert ls == init + [location];
    }
  }

  /** A heading followed by lines without headings adds just that heading. */
  lemma HeadingThenNone(lines: seq<SummaryLine>, location: string, rest: seq<SummaryLine>)
    requires Headings(rest) == []
    ensures Headings(lines + [LocationLine(location)] + rest) == Headings(lines) + [location]
  {
    HeadingsAppend(lines + [LocationLine(location)], rest);
    HeadingsAppend(lines, [LocationLine(location)]);
    assert Headings([LocationLine(location)]) == [location];
  }

  /**
   * The summary has one heading per distinct route location, in the order
   * the locations first appear on the route.
   */
  lemma SummaryFollowsRoute(api: ForecastApi, route: seq<string>, days: nat)
    requires ForecastSpec(api, route, days).Ok?
    ensures WellFormed(ForecastSpec(api, route, days).value)
    ensures Headings(SummaryLines(ForecastSpec(api, route, days).value)) == Dedup(route)
  {
    ForecastSpecSucceeds(api, route, days);
    var f := ForecastSpec(api, route, days).value;
    BlocksHeadings(f, f.keys);
  }

  /** The three chart photos of each location, in order. */
  function ChartPhotos(locations: seq<string>): (photos: seq<Reply>)
    ensures |photos| == 3 * |locations|
  {
    if locations == [] then []
    else
      var location := locations[|locations| - 1];
      ChartPhotos(locations[..|locations| - 1])
        + [Photo(location, TemperatureChart), Photo(location, PrecipitationChart), Photo(location, WindChart)]
  }

  /** One more location adds its three charts. */
  lemma ChartPhotosStep(locations: seq<string>, i: nat)
    requires i < |locations|
    ensures ChartPhotos(locations[..i + 1])
         == ChartPhotos(locations[..i]) + [Photo(locations[i], TemperatureChart), Photo(locations[i], PrecipitationChart), Photo(locations[i], WindChart)]
  {
    assert locations[..i + 1][..i] == locations[..i];
  }

  /** Photo `3k`, `3k+1`, `3k+2` are location `k`'s temperature, precipitation and wind charts. */
  lemma {:induction false} ChartPhotosAt(locations: seq<string>, k: nat)
    requires k < |locations|
    ensures ChartPhotos(locations)[3 * k] == Photo(locations[k], TemperatureChart)
    ensures ChartPhotos(locations)[3 * k + 1] == Photo(locations[k], PrecipitationChart)
    ensures ChartPhotos(locations)[3 * k + 2] == Photo(locations[k], WindChart)
  {
    var init := locations[..|locations| - 1];
    if k < |init| {
      ChartPhotosAt(init, k);
    }
  }

  // ---------------------------------------------------------------- the route link

  /** Python's `all(coordinates)`: a tuple is truthy when it is not empty. */
  predicate AllTruthy(coordinates: seq<(Num, Num)>) {
    forall i :: 0 <= i < |coordinates| ==> |[coordinates[i].0, coordinates[i].1]| > 0
  }

  /** The one message of the route step (`process_days`' inner `try`). */
  function RouteStepReply(services: Services, route: seq<string>): Reply {
    match AllCoordinates(services.geocoder, route)
    case Err(e) => Text(RouteErrorPrefix + Message(e))
    case Ok(coordinates) =>
      if AllTruthy(coordinates) then
        match GenerateRouteUrl(services.router, coordinates)
        case Ok(url) => Text(RouteLinkPrefix + url)
        case Err(e) => Text(RouteErrorPrefix + Message(e))
      else Text(CoordinatesUnavailable)
  }

  /**
   * The route step sends the link when every point has coordinates and the
   * router finds a path, and otherwise an error naming the first failure.
   * `all(coordinates)` holds whenever every point was found, so the
   * "coordinates unavailable" branch is never taken; when a point has no
   * coordinates the router is not consulted.
   */
  lemma RouteStepReplyForms(services: Services, route: seq<string>)
    ensures AllCoordinates(services.geocoder, route).Ok? ==>
      && AllTruthy(AllCoordinates(services.geocoder, route).value)
      && RouteStepReply(services, route) == match GenerateRouteUrl(services.router, AllCoordinates(services.geocoder, route).value)
           case Ok(url) => Text(RouteLinkPrefix + url)
           case Err(e) => Text(RouteErrorPrefix + Message(e))
    ensures AllCoordinates(services.geocoder, route).Err? ==>
      && RouteStepReply(services, route) == Text(RouteErrorPrefix + Message(AllCoordinates(services.geocoder, route).error))
      && forall router :: RouteStepReply(services.(router := router), route) == RouteStepReply(services, route)
  {
  }

  // ---------------------------------------------------------------- process_days

  /** Everything `process_days` sends for the route and the day count. */
  function DaysReplies(services: Services, route: seq<string>, days: nat): (replies: seq<Reply>)
    ensures |replies| >= 1
  {
    match ForecastSpec(services.forecast, route, days)
    case Err(e) => [Text(ForecastErrorPrefix + Message(e))]
    case Ok(f) => ChartPhotos(f.keys) + [RouteStepReply(services, route), Text(SummaryText(f))]
  }

  /**
   * If the forecast fails, the only message is one forecast error, naming the
   * first location that failed. Otherwise: three photos per distinct route
   * location in order of first appearance, then exactly one route-step
   * message, then the summary last.
   */
  lemma DaysRepliesOrder(services: Services, route: seq<string>, days: nat)
    ensures ForecastSpec(services.forecast, route, days).Err? <==> |DaysReplies(services, route, days)| == 1
    ensures ForecastSpec(services.forecast, route, days).Err? ==>
      && DaysReplies(services, route, days) == [Text(ForecastErrorPrefix + Message(ForecastSpec(services.forecast, route, days).error))]
      && exists i :: (
        && 0 <= i < |route|
        && ForecastFor(services.forecast, route[i], days) == Err(ForecastSpec(services.forecast, route, days).error)
        && forall j :: 0 <= j < i ==> ForecastFor(services.forecast, route[j], days).Ok?)
    ensures ForecastSpec(services.forecast, route, days).Ok? ==>
      var replies := DaysReplies(services, route, days);
      var f := ForecastSpec(services.forecast, route, days).value;
      && |replies| == 3 * |Dedup(route)| + 2
      && (forall k :: 0 <= k < |Dedup(route)| ==>
            && replies[3 * k] == Photo(Dedup(route)[k], TemperatureChart)
            && replies[3 * k + 1] == Photo(Dedup(route)[k], PrecipitationChart)
            && replies[3 * k + 2] == Photo(Dedup(route)[k], WindChart))
      && replies[|replies| - 2] == RouteStepReply(services, route)
      && WellFormed(f)
      && replies[|replies| - 1] == Text(SummaryText(f))
  {
    var r := ForecastSpec(services.forecast, route, days);
    ForecastSpecSucceeds(services.forecast, route, days);
    if r.Err? {
      ForecastSpecFails(services.forecast, route, days);
    } else {
      var f := r.value;
      var replies := DaysReplies(services, route, days);
      forall k | 0 <= k < |f.keys|
        ensures && replies[3 * k] == Photo(f.keys[k], TemperatureChart)
                && replies[3 * k + 1] == Photo(f.keys[k], PrecipitationChart)
                && replies[3 * k + 2] == Photo(f.keys[k], WindChart)
      {
        ChartPhotosAt(f.keys, k);
      }
    }
  }

  // ---------------------------------------------------------------- one chat

  /**
   * What the handlers keep true of a chat: the session holds exactly the
   * answers given so far in the current run of the form, each stored name is
   * formatted, and stored waypoints are non-blank and comma-free.
   */
  ghost predicate Consistent(s: Session) {
    var d := s.data;
    && d.days.None?
    && (d.startPoint.Some? <==> s.state in {EndPoint, IntermediatePoints, Days})
    && (d.endPoint.Some? <==> s.state in {IntermediatePoints, Days})
    && (d.intermediatePoints.Some? <==> s.state == Days)
    && (d.startPoint.Some? ==> Trimmed(d.startPoint.value))
    && (d.endPoint.Some? ==> Trimmed(d.endPoint.value))
    && (d.intermediatePoints.Some? ==>
          forall i :: 0 <= i < |d.intermediatePoints.value| ==>
            var p := d.intermediatePoints.value[i];
            p != [] && Trimmed(p) && ',' !in p)
  }

  datatype Step = Step(session: Session, replies: seq<Reply>)

  /** Whether some handler takes the update in this state; any other update is ignored. */
  predicate Handles(state: FormState, u: Update) {
    match u
    case TextMessage(text) => state in {StartPoint, EndPoint, IntermediatePoints} || (state == Idle && IsWeatherCommand(text))
    case Callback(data) => state == Days && IsDigits(data)
  }

  /**
   * What `process_days` sends for a route and a day count. The form's steps do
   * not depend on it; `HandleUpdate` uses `DaysReporter`.
   */
  type Reporter = (seq<string>, nat) -> seq<Reply>

  function DaysReporter(services: Services): Reporter {
    (route: seq<string>, days: nat) => DaysReplies(services, route, days)
  }

  /** One update delivered to a chat: the handler aiogram picks for the state, if any, and what it does. */
  function Transition(report: Reporter, s: Session, u: Update): (step: Step)
    requires Consistent(s)
    ensures Consistent(step.session)
  {
    match u
    case TextMessage(text) =>
      if s.state == Idle && IsWeatherCommand(text) then
        Step(Session(StartPoint, s.data), [Text(StartPrompt)])
      else if s.state == StartPoint then
        Step(Session(Next(s.state), s.data.(startPoint := Some(FormatCityName(text)))), [Text(EndPrompt)])
      else if s.state == EndPoint then
        Step(Session(Next(s.state), s.data.(endPoint := Some(FormatCityName(text)))), [Text(WaypointsPrompt)])
      else if s.state == IntermediatePoints then
        Step(Session(Next(s.state), s.data.(intermediatePoints := Some(ParseWaypoints(text)))),
             [Keyboard(DaysPrompt, DayButtons)])
      else Step(s, [])
    case Callback(data) =>
      if s.state == Days && IsDigits(data) then
        Step(Session(Idle, NoData), report(RouteOf(s.data), DecimalValue(data)))
      else Step(s, [])
  }

  /**
   * The form only moves forward: a handled update moves the chat to the next
   * state in declaration order (from the last back to no state, with the
   * session cleared) and sends something; any other update changes nothing
   * and sends nothing.
   */
  lemma TransitionMovesForward(services: Services, s: Session, u: Update)
    requires Consistent(s)
    ensures Handles(s.state, u) ==>
      && Transition(DaysReporter(services), s, u).session.state == Next(s.state)
      && Transition(DaysReporter(services), s, u).replies != []
    ensures Handles(s.state, u) && s.state == Days ==> Transition(DaysReporter(services), s, u).session == Session(Idle, NoData)
    ensures !Handles(s.state, u) ==> Transition(DaysReporter(services), s, u) == Step(s, [])
  {
  }

  /** Several updates in turn, the last one last. */
  function Run(report: Reporter, s: Session, us: seq<Update>): (step: Step)
    requires Consistent(s)
    ensures Consistent(step.session)
    decreases |us|
  {
    if us == [] then Step(s, [])
    else
      var before := Run(report, s, us[..|us| - 1]);
      var last := Transition(report, before.session, us[|us| - 1]);
      Step(last.session, before.replies + last.replies)
  }

  /** The state after each of several updates. */
  function States(report: Reporter, s: Session, us: seq<Update>): (states: seq<FormState>)
    requires Consistent(s)
    ensures |states| == |us|
    decreases |us|
  {
    if us == [] then []
    else States(report, s, us[..|us| - 1]) + [Run(report, s, us).session.state]
  }

  /** `Run` and `States` with one more update: the transition from where the others left the chat. */
  lemma RunSnoc(report: Reporter, s: Session, us: seq<Update>, u: Update)
    requires Consistent(s)
    ensures
      var before := Run(report, s, us);
      var last := Transition(report, before.session, u);
      && Run(report, s, us + [u]) == Step(last.session, before.replies + last.replies)
      && States(report, s, us + [u]) == States(report, s, us) + [last.session.state]
  {
    assert (us + [u])[..|us|] == us;
  }

  /**
   * A complete run of the form: /weather, the start point, the end point, the
   * waypoints and a day button visit the states in declaration order, back to
   * no state with the session cleared, and send the four prompts followed by
   * the report `process_days` sends for the route the answers describe.
   */
  lemma CompleteDialogue(report: Reporter, command: string, start: string, end: string, waypoints: string, button: string)
    requires IsWeatherCommand(command) && IsDigits(button)
    ensures
      var us := [TextMessage(command)] + [TextMessage(start)] + [TextMessage(end)] + [TextMessage(waypoints)] + [Callback(button)];
      && States(report, Session(Idle, NoData), us) == [StartPoint] + [EndPoint] + [IntermediatePoints] + [Days] + [Idle]
      && Run(report, Session(Idle, NoData), us) == Step(Session(Idle, NoData),
           [Text(StartPrompt)] + [Text(EndPrompt)] + [Text(WaypointsPrompt)] + [Keyboard(DaysPrompt, DayButtons)]
           + report(Route(FormatCityName(start), ParseWaypoints(waypoints), FormatCityName(end)), DecimalValue(button)))
  {
    var s0 := Session(Idle, NoData);
    var d1 := NoData.(startPoint := Some(FormatCityName(start)));
    var d2 := d1.(endPoint := Some(FormatCityName(end)));
    var d3 := d2.(intermediatePoints := Some(ParseWaypoints(waypoints)));
    var u1 := [TextMessage(command)];
    var u2 := u1 + [TextMessage(start)];
    var u3 := u2 + [TextMessage(end)];
    var u4 := u3 + [TextMessage(waypoints)];
    CommandTyped(report, command);
    RunSnoc(report, s0, [], TextMessage(command));
    assert [] + [TextMessage(command)] == u1;
    assert Run(report, s0, u1) == Step(Session(StartPoint, NoData), [Text(StartPrompt)]);
    assert States(report, s0, u1) == [StartPoint];
    StartAnswered(report, NoData, start);
    RunSnoc(report, s0, u1, TextMessage(start));
    assert Run(report, s0, u2) == Step(Session(EndPoint, d1), [Text(StartPrompt)] + [Text(EndPrompt)]);
    assert States(report, s0, u2) == [StartPoint] + [EndPoint];
    EndAnswered(report, d1, end);
    RunSnoc(report, s0, u2, TextMessage(end));
    assert Run(report, s0, u3) == Step(Session(IntermediatePoints, d2), [Text(StartPrompt)] + [Text(EndPrompt)] + [Text(WaypointsPrompt)]);
    WaypointsAnswered(report, d2, waypoints);
    RunSnoc(report, s0, u3, TextMessage(waypoints));
    assert Run(report, s0, u4).session == Session(Days, d3);
    ButtonPressed(report, d3, button);
    RunSnoc(report, s0, u4, Callback(button));
  }

  lemma CommandTyped(report: Reporter, command: string)
    requires IsWeatherCommand(command)
    ensures Transition(report, Session(Idle, NoData), TextMessage(command))
      == Step(Session(StartPoint, NoData), [Text(StartPrompt)])
  {
  }

  lemma StartAnswered(report: Reporter, d: SessionData, text: string)
    requires Consistent(Session(StartPoint, d))
    ensures Transition(report, Session(StartPoint, d), TextMessage(text))
      == Step(Session(EndPoint, d.(startPoint := Some(FormatCityName(text)))), [Text(EndPrompt)])
  {
  }

  lemma EndAnswered(report: Reporter, d: SessionData, text: string)
    requires Consistent(Session(EndPoint, d))
    ensures Transition(report, Session(EndPoint, d), TextMessage(text))
      == Step(Session(IntermediatePoints, d.(endPoint := Some(FormatCityName(text)))), [Text(WaypointsPrompt)])
  {
  }

  lemma WaypointsAnswered(report: Reporter, d: SessionData, text: string)
    requires Consistent(Session(IntermediatePoints, d))
    ensures Transition(report, Session(IntermediatePoints, d), TextMessage(text))
      == Step(Session(Days, d.(intermediatePoints := Some(ParseWaypoints(text)))), [Keyboard(DaysPrompt, DayButtons)])
  {
  }

  lemma ButtonPressed(report: Reporter, d: SessionData, button: string)
    requires Consistent(Session(Days, d)) && IsDigits(button)
    ensures Transition(report, Session(Days, d), Callback(button))
      == Step(Session(Idle, NoData), report(RouteOf(d), DecimalValue(button)))
  {
  }

  /** Every button offered passes the `isdigit` filter and stores its day count. */
  lemma DayButtonsAccepted()
    ensures forall b :: b in DayButtons ==> IsDigits(b.callbackData)
    ensures [DecimalValue(DayButtons[0].callbackData), DecimalValue(DayButtons[1].callbackData),
             DecimalValue(DayButtons[2].callbackData)] == [1, 3, 5]
  {
  }

  /** `process_days`' inner loop: append the lines of every date of one location. */
  method AppendDays(lines: seq<SummaryLine>, dates: DateMap) returns (r: seq<SummaryLine>)
    requires dates.Valid()
    ensures dates.Valid() && r == lines + DaysLines(dates, dates.keys)
  {
    r := lines;
    for j := 0 to |dates.keys|
      invariant r == lines + DaysLines(dates, dates.keys[..j])
    {
      var date := dates.keys[j];
      KeyHasEntry(dates, j);
      assert dates.keys[..j + 1][..j] == dates.keys[..j];
      r := r + DateLines(date, dates.items[date]);
    }
    assert dates.keys[..|dates.keys|] == dates.keys;
  }

  /**
   * The success path of `process_days`: for each location, add its block to
   * the summary and send its three charts; then send the route step and
   * the summary. The summary is built as its lines and rendered once.
   * `sent` lists the messages in the order they go out.
   */
  method Report(services: Services, route: seq<string>, forecast: Forecast) returns (sent: seq<Reply>)
    requires WellFormed(forecast)
    ensures sent == ChartPhotos(forecast.keys) + [RouteStepReply(services, route), Text(SummaryText(forecast))]
  {
    var response: seq<SummaryLine> := [];
    sent := [];
    for i := 0 to |forecast.keys|
      invariant sent == ChartPhotos(forecast.keys[..i])
      invariant response == BlocksLines(forecast, forecast.keys[..i])
    {
      var location := forecast.keys[i];
      KeyHasEntry(forecast, i);
      BlocksLinesStep(forecast, forecast.keys, i);
      ChartPhotosStep(forecast.keys, i);
      response := response + [LocationLine(location)];
      response := AppendDays(response, forecast.items[location]);
      sent := sent + [Photo(location, TemperatureChart), Photo(location, PrecipitationChart), Photo(location, WindChart)];
    }
    assert forecast.keys[..|forecast.keys|] == forecast.keys;
    sent := sent + [RouteStepReply(services, route)];
    sent := sent + [Text(SummaryHeader + Render(response))];
  }

  /** One chat with the bot: its FSM state, its FSM data, and the messages sent to it so far. */
  class WeatherChat {
    var state: FormState
    var data: SessionData
    var outbox: seq<Reply>

    function Current(): Session
      reads this
    {
      Session(state, data)
    }

    ghost predicate Valid()
      reads this
    {
      Consistent(Current())
    }

    constructor ()
      ensures Valid() && state == Idle && data == NoData && outbox == []
    {
      state, data, outbox := Idle, NoData, [];
    }

    /** `cmd_weather`: prompt for the start point and enter the form. */
    method CmdWeather()
      requires Valid() && state == Idle
      modifies this
      ensures Valid() && state == StartPoint && data == old(data)
      ensures outbox == old(outbox) + [Text(StartPrompt)]
    {
      outbox := outbox + [Text(StartPrompt)];
      state := StartPoint;
    }

    /** `process_start_point`. */
    method ProcessStartPoint(text: string)
      requires Valid() && state == StartPoint
      modifies this
      ensures Valid() && state == EndPoint
      ensures data == old(data).(startPoint := Some(FormatCityName(text)))
      ensures outbox == old(outbox) + [Text(EndPrompt)]
    {
      var startPoint := FormatCityName(text);
      data := data.(startPoint := Some(startPoint));
      outbox := outbox + [Text(EndPrompt)];
      state := Next(state);
    }

    /** `process_end_point`. */
    method ProcessEndPoint(text: string)
      requires Valid() && state == EndPoint
      modifies this
      ensures Valid() && state == IntermediatePoints
      ensures data == old(data).(endPoint := Some(FormatCityName(text)))
      ensures outbox == old(outbox) + [Text(WaypointsPrompt)]
    {
      var endPoint := FormatCityName(text);
      data := data.(endPoint := Some(endPoint));
      outbox := outbox + [Text(WaypointsPrompt)];
      state := Next(state);
    }

    /** `process_intermediate_points`: store the parsed waypoints and offer the day buttons. */
    method ProcessIntermediatePoints(text: string)
      requires Valid() && state == IntermediatePoints
      modifies this
      ensures Valid() && state == Days
      ensures data == old(data).(intermediatePoints := Some(ParseWaypoints(text)))
      ensures outbox == old(outbox) + [Keyboard(DaysPrompt, DayButtons)]
    {
      var points := ParseWaypoints(text);
      data := data.(intermediatePoints := Some(points));
      outbox := outbox + [Keyboard(DaysPrompt, DayButtons)];
      state := Next(state);
    }

    /**
     * `process_days`: store the day count, build the route, fetch the
     * forecast and report it, or send the error; either way, finish the
     * session.
     */
    method ProcessDays(services: Services, callbackData: string)
      requires Valid() && state == Days && IsDigits(callbackData)
      modifies this
      ensures Valid() && state == Idle && data == NoData
      ensures outbox == old(outbox) + DaysReplies(services, RouteOf(old(data)), DecimalValue(callbackData))
    {
      data := data.(days := Some(DecimalValue(callbackData)));
      var days := data.days.value;
      var locations := Route(data.startPoint.value, data.intermediatePoints.value, data.endPoint.value);
      assert locations == RouteOf(old(data));
      var result := GetWeatherForecast(services.forecast, locations, days);
      ForecastSpecSucceeds(services.forecast, locations, days);
      match result {
        case Err(e) =>
          assert DaysReplies(services, locations, days) == [Text(ForecastErrorPrefix + Message(e))];
          outbox := outbox + [Text(ForecastErrorPrefix + Message(e))];
        case Ok(forecast) =>
          assert DaysReplies(services, locations, days)
            == ChartPhotos(forecast.keys) + [RouteStepReply(services, locations), Text(SummaryText(forecast))];
          var sent := Report(services, locations, forecast);
          outbox := outbox + sent;
      }
      state, data := Idle, NoData;
    }

    /** Deliver one update to the handler aiogram selects for the chat's state; other updates are dropped. */
    method HandleUpdate(services: Services, u: Update)
      requires Valid()
      modifies this
      ensures Valid()
      ensures Current() == Transition(DaysReporter(services), old(Current()), u).session
      ensures outbox == old(outbox) + Transition(DaysReporter(services), old(Current()), u).replies
    {
      match u {
        case TextMessage(text) =>
          if state == Idle && IsWeatherCommand(text) {
            CmdWeather();
          } else if state == StartPoint {
            ProcessStartPoint(text);
          } else if state == EndPoint {
            ProcessEndPoint(text);
          } else if state == IntermediatePoints {
            ProcessIntermediatePoints(text);
          }
        case Callback(callbackData) =>
          if state == Days && IsDigits(callbackData) {
            ProcessDays(services, callbackData);
          }
      }
    }
  }
}
