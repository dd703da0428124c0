/**
 * The weather and routing client of the bot: city-name normalisation, the
 * AccuWeather location-key lookup and 5-day forecast, the OpenStreetMap
 * geocoder, and the GraphHopper route request and map link.
 *
 * Each HTTP endpoint is a function from what the request carries to what
 * `requests` hands back (a decoded body, or the exception it raises); the
 * model then states what the client does with every outcome.
 */
module WeatherService {
  import opened Wrappers
  import opened PyText
  import opened OrderedMaps

  /** A number from a JSON response, kept as the text Python's `str()` renders it: the bot only prints it. */
  datatype Num = Num(text: string)

  /**
   * What one HTTP call yields: the decoded JSON body; a `requests.RequestException`
   * (no connection, or an error status raised by `raise_for_status`); or a
   * `ValueError` raised while decoding the body.
   */
  datatype Fetched<+T> = Fetched(body: T) | RequestFailed(detail: string) | DecodeFailed(detail: string)

  /** The exceptions the client raises, each with the text `str(e)` gives. */
  datatype Failure =
    | LocationNotFound(location: string)
    | LocationKeyRequestFailed(location: string, detail: string)
    | ResponseNotDecoded(location: string, detail: string)
    | ForecastRequestFailed(location: string, detail: string)
    | CoordinatesNotFound(location: string)
    | CoordinatesRequestFailed(location: string, detail: string)
    | RouteNotFound
    | RouteRequestFailed(detail: string)
      /** an exception the client lets through unwrapped */
    | Propagated(detail: string)

  function Message(f: Failure): string {
    match f
    case LocationNotFound(l) => "Локация " + l + " не найдена."
    case LocationKeyRequestFailed(l, d) => "Ошибка при получении ключа локации для " + l + ": " + d
    case ResponseNotDecoded(l, d) => "Ошибка при обработке ответа API для " + l + ": " + d
    case ForecastRequestFailed(l, d) => "Ошибка при получении данных о погоде для " + l + ": " + d
    case CoordinatesNotFound(l) => "Координаты для локации " + l + " не найдены."
    case CoordinatesRequestFailed(l, d) => "Ошибка при получении координат для " + l + ": " + d
    case RouteNotFound => "Маршрут не найден."
    case RouteRequestFailed(d) => "Ошибка при получении маршрута: " + d
    case Propagated(d) => d
  }

  // ---------------------------------------------------------------- city names

  /** `format_city_name`: `city.strip().title()`. */
  function FormatCityName(city: string): (name: string)
    ensures Trimmed(name) && IsTitleCased(name)
    ensures name == [] <==> Strip(city) == []
  {
    var s := Strip(city);
    TitleKeepsTrimmed(s);
    TitleFixedPoints(s);
    Title(s)
  }

  /** Formatting changes only letters: any other character of the name was in the input. */
  lemma FormatCityNameKeepsUncased(city: string, c: char)
    requires !IsCased(c) && c in FormatCityName(city)
    ensures c in city
  {
    var s := Strip(city);
    var i :| 0 <= i < |s| && Title(s)[i] == c;
    TitleKeepsUncased(s, i);
    assert s[i] in s;
  }

  /** Formatting a formatted name changes nothing. */
  lemma FormatCityNameIdempotent(city: string)
    ensures FormatCityName(FormatCityName(city)) == FormatCityName(city)
  {
    var name := FormatCityName(city);
    StripOfPadded([], name, []);
    assert [] + name + [] == name;
    TitleIdempotent(Strip(city));
  }

  // ---------------------------------------------------------------- AccuWeather

  /** One element of the city-search response; only its `Key` is read. */
  datatype SearchHit = SearchHit(key: string)

  datatype Measure = Measure(value: Num, unit: string)

  /** The `Day` or `Night` half of a daily forecast. */
  datatype HalfDay = HalfDay(precipitationProbability: Num, windSpeed: Measure)

  /** One element of the response's `DailyForecasts`. */
  datatype DailyForecast = DailyForecast(date: string, minimum: Measure, maximum: Measure, day: HalfDay, night: HalfDay)

  /** What the bot keeps of one day. */
  datatype DayRecord = DayRecord(temperatureMin: Num, temperatureMax: Num, precipitationProbability: Num, windSpeed: Num)

  /** Date -> day record, in upstream order. */
  type DateMap = OrderedMap<string, DayRecord>

  /** Location -> its date map, in order of first request. */
  type Forecast = OrderedMap<string, DateMap>

  /**
   * The two AccuWeather endpoints: the city search (by location name) and the
   * 5-day daily forecast (by location key; the body is its `DailyForecasts`).
   */
  datatype ForecastApi = ForecastApi(
    search: string -> Fetched<seq<SearchHit>>,
    daily: string -> Fetched<seq<DailyForecast>>)

  /** `get_location_key`: the first search result's key, or an exception. */
  function GetLocationKey(api: ForecastApi, location: string): (r: Result<string, Failure>)
    ensures r.Ok? <==> api.search(location).Fetched? && api.search(location).body != []
    ensures r.Ok? ==> r.value == api.search(location).body[0].key
    ensures api.search(location) == Fetched([]) ==> r == Err(LocationNotFound(location))
  {
    match api.search(location)
    case RequestFailed(d) => Err(LocationKeyRequestFailed(location, d))
    case DecodeFailed(d) => Err(ResponseNotDecoded(location, d))
    case Fetched(hits) => if hits == [] then Err(LocationNotFound(location)) else Ok(hits[0].key)
  }

  /** Python's `s[:k]`, for any integer `k`. */
  function SliceTo<T>(s: seq<T>, k: int): (t: seq<T>)
    ensures |t| <= |s| && t == s[..|t|]
    ensures 0 <= k ==> |t| == if k < |s| then k else |s|
  {
    if 0 <= k then s[..if k < |s| then k else |s|]
    else s[..if |s| + k < 0 then 0 else |s| + k]
  }

  function ExtractDay(d: DailyForecast): DayRecord {
    DayRecord(d.minimum.value, d.maximum.value, d.day.precipitationProbability, d.day.windSpeed.value)
  }

  function DayPairs(entries: seq<DailyForecast>): (ps: seq<(string, DayRecord)>)
    ensures |ps| == |entries|
  {
    seq(|entries|, i requires 0 <= i < |entries| => (entries[i].date, ExtractDay(entries[i])))
  }

  /** The inner dictionary of `get_weather_forecast`, filled from `DailyForecasts[:days]`. */
  function DateMapOf(entries: seq<DailyForecast>, days: int): DateMap {
    FromPairs(DayPairs(SliceTo(entries, days)))
  }

  function Dates(entries: seq<DailyForecast>): (ds: seq<string>)
    ensures |ds| == |entries| && forall i :: 0 <= i < |entries| ==> ds[i] == entries[i].date
  {
    seq(|entries|, i requires 0 <= i < |entries| => entries[i].date)
  }

  /**
   * A location's date map has at most `days` dates, all from the front of the
   * upstream list; with distinct upstream dates it holds exactly the first
   * `days` of them, in upstream order, each with its four copied figures.
   */
  lemma DateMapOfShape(entries: seq<DailyForecast>, days: int)
    ensures DateMapOf(entries, days).Valid()
    ensures |DateMapOf(entries, days).keys| <= |entries|
    ensures 0 <= days ==> |DateMapOf(entries, days).keys| <= days
    ensures DateMapOf(entries, days).keys == Dedup(Dates(SliceTo(entries, days)))
    ensures 0 <= days && Distinct(Dates(entries)) ==>
      var m := DateMapOf(entries, days);
      && |m.keys| == (if days < |entries| then days else |entries|)
      && forall i :: 0 <= i < |m.keys| ==>
           m.keys[i] == entries[i].date && m.items[m.keys[i]] == ExtractDay(entries[i])
  {
    var front := SliceTo(entries, days);
    var ps := DayPairs(front);
    assert Firsts(ps) == Dates(front);
    FromPairsShape(ps);
    if 0 <= days && Distinct(Dates(entries)) {
      assert Distinct(Dates(front)) by {
        forall i, j | 0 <= i < j < |front| ensures front[i].date != front[j].date {
          assert front[i] == entries[i] && front[j] == entries[j];
          assert Dates(entries)[i] != Dates(entries)[j];
        }
      }
      FromDistinctPairs(ps);
      forall i | 0 <= i < |front| ensures ps[i].0 == entries[i].date && ps[i].1 == ExtractDay(entries[i]) {
        assert front[i] == entries[i];
      }
    }
  }

  /** The body of the loop of `get_weather_forecast` for one location. */
  function ForecastFor(api: ForecastApi, location: string, days: int): Result<DateMap, Failure> {
    match GetLocationKey(api, location)
    case Err(e) => Err(e)
    case Ok(key) =>
      if key == "" then Err(LocationNotFound(location))
      else
        match api.daily(key)
        case RequestFailed(d) => Err(ForecastRequestFailed(location, d))
        case DecodeFailed(d) => Err(ResponseNotDecoded(location, d))
        case Fetched(entries) => Ok(DateMapOf(entries, days))
  }

  /** A found location's date map is a well-formed ordered map. */
  lemma ForecastForValid(api: ForecastApi, location: string, days: int)
    ensures ForecastFor(api, location, days).Ok? ==> ForecastFor(api, location, days).value.Valid()
  {
    if ForecastFor(api, location, days).Ok? {
      DateMapOfShape(api.daily(api.search(location).body[0].key).body, days);
    }
  }

  /** A location's forecast is found exactly when its search has a non-empty first key and its forecast request succeeds. */
  lemma ForecastForSucceeds(api: ForecastApi, location: string, days: int)
    ensures ForecastFor(api, location, days).Ok? <==>
      && api.search(location).Fetched? && api.search(location).body != []
      && api.search(location).body[0].key != ""
      && api.daily(api.search(location).body[0].key).Fetched?
    ensures ForecastFor(api, location, days).Ok? ==>
      ForecastFor(api, location, days).value == DateMapOf(api.daily(api.search(location).body[0].key).body, days)
  {
  }

  /** How one location's date map is obtained; `get_weather_forecast` uses `ForecastFor`. */
  type Lookup = string -> Result<DateMap, Failure>

  function LookupIn(api: ForecastApi, days: int): Lookup {
    location => ForecastFor(api, location, days)
  }

  /** The locations looked up one at a time and collected in order; the first failure is raised. */
  function Collect(lookup: Lookup, locations: seq<string>): Result<Forecast, Failure> {
    if locations == [] then Ok(Empty())
    else
      match Collect(lookup, locations[..|locations| - 1])
      case Err(e) => Err(e)
      case Ok(f) =>
        var location := locations[|locations| - 1];
        match lookup(location)
        case Err(e) => Err(e)
        case Ok(dates) => Ok(f.Put(location, dates))
  }

  /** `get_weather_forecast`, stated over the locations one at a time. */
  function ForecastSpec(api: ForecastApi, locations: seq<string>, days: int): Result<Forecast, Failure> {
    Collect(LookupIn(api, days), locations)
  }

  /** Every date map a lookup returns is well formed. */
  ghost predicate ValidLookup(lookup: Lookup) {
    forall location :: lookup(location).Ok? ==> lookup(location).value.Valid()
  }

  /** Every location is a key, in first-occurrence order, mapped to its own date map. */
  ghost predicate Covers(lookup: Lookup, locations: seq<string>, f: Forecast) {
    && f.Valid()
    && f.keys == Dedup(locations)
    && (forall k :: k in f.items ==> f.items[k].Valid())
    && forall i :: 0 <= i < |locations| ==> lookup(locations[i]) == Ok(f.items[locations[i]])
  }

  ghost predicate ForecastCovers(api: ForecastApi, locations: seq<string>, days: int, f: Forecast) {
    Covers(LookupIn(api, days), locations, f)
  }

  /**
   * The forecast is returned exactly when every location's lookup succeeds;
   * its keys are then the requested locations, each once, in order of first
   * request, and each maps to that location's date map.
   */
  lemma ForecastSpecSucceeds(api: ForecastApi, locations: seq<string>, days: int)
    ensures ForecastSpec(api, locations, days).Ok? <==>
      forall i :: 0 <= i < |locations| ==> ForecastFor(api, locations[i], days).Ok?
    ensures ForecastSpec(api, locations, days).Ok? ==>
      ForecastCovers(api, locations, days, ForecastSpec(api, locations, days).value)
  {
    var lookup := LookupIn(api, days);
    CollectOk(lookup, locations);
    if Collect(lookup, locations).Ok? {
      forall location ensures lookup(location).Ok? ==> lookup(location).value.Valid() {
        ForecastForValid(api, location, days);
      }
      CollectCovers(lookup, locations);
    }
  }

  /** On failure, the exception raised is that of the first location whose lookup fails. */
  lemma ForecastSpecFails(api: ForecastApi, locations: seq<string>, days: int)
    requires ForecastSpec(api, locations, days).Err?
    ensures exists i :: (
      && 0 <= i < |locations|
      && ForecastFor(api, locations[i], days) == Err(ForecastSpec(api, locations, days).error)
      && forall j :: 0 <= j < i ==> ForecastFor(api, locations[j], days).Ok?)
  {
    CollectFails(LookupIn(api, days), locations);
  }

  /** One more location: the collection succeeds exactly when it did for the others and the lookup of this one succeeds. */
  lemma CollectLast(lookup: Lookup, locations: seq<string>)
    requires locations != []
    ensures var init := Collect(lookup, locations[..|locations| - 1]);
      var last := lookup(locations[|locations| - 1]);
      && (Collect(lookup, locations).Ok? <==> init.Ok? && last.Ok?)
      && (init.Ok? && last.Ok? ==> Collect(lookup, locations).value == init.value.Put(locations[|locations| - 1], last.value))
      && (init.Err? ==> Collect(lookup, locations) == init)
      && (init.Ok? && last.Err? ==> Collect(lookup, locations) == Err(last.error))
  {
  }

  lemma {:induction false} CollectOk(lookup: Lookup, locations: seq<string>)
    ensures Collect(lookup, locations).Ok? <==> forall i :: 0 <= i < |locations| ==> lookup(locations[i]).Ok?
  {
    if locations != [] {
      var init := locations[..|locations| - 1];
      CollectLast(lookup, locations);
      CollectOk(lookup, init);
      assert forall i :: 0 <= i < |init| ==> init[i] == locations[i];
    }
  }

  lemma {:induction false} CollectCovers(lookup: Lookup, locations: seq<string>)
    requires ValidLookup(lookup) && Collect(lookup, locations).Ok?
    ensures Covers(lookup, locations, Collect(lookup, locations).value)
  {
    if locations != [] {
      var init := locations[..|locations| - 1];
      var location := locations[|locations| - 1];
      CollectLast(lookup, locations);
      CollectCovers(lookup, init);
      assert locations == init + [location];
      CoversStep(lookup, init, location, Collect(lookup, init).value);
    }
  }

  /** Adding one location whose lookup succeeds keeps the forecast covering the locations so far. */
  lemma CoversStep(lookup: Lookup, init: seq<string>, location: string, f: Forecast)
    requires ValidLookup(lookup) && Covers(lookup, init, f) && lookup(location).Ok?
    ensures Covers(lookup, init + [location], f.Put(location, lookup(location).value))
  {
    var locations := init + [location];
    var g := f.Put(location, lookup(location).value);
    assert locations[..|locations| - 1] == init;
    ElementsMember(f.keys);
    forall k | k in g.items ensures g.items[k].Valid() {
      if k != location { assert k in f.items; }
    }
    forall i | 0 <= i < |locations| ensures lookup(locations[i]) == Ok(g.items[locations[i]]) {
      if locations[i] != location { assert i < |init| && locations[i] == init[i]; }
    }
  }

  lemma {:induction false} CollectFails(lookup: Lookup, locations: seq<string>)
    requires Collect(lookup, locations).Err?
    ensures exists i :: (
      && 0 <= i < |locations|
      && lookup(locations[i]) == Err(Collect(lookup, locations).error)
      && forall j :: 0 <= j < i ==> lookup(locations[j]).Ok?)
  {
    var init := locations[..|locations| - 1];
    var n := |locations| - 1;
    CollectLast(lookup, locations);
    assert forall i :: 0 <= i < |init| ==> init[i] == locations[i];
    if Collect(lookup, init).Err? {
      CollectFails(lookup, init);
      var i :| 0 <= i < |init| && lookup(init[i]) == Err(Collect(lookup, init).error)
        && forall j :: 0 <= j < i ==> lookup(init[j]).Ok?;
      assert lookup(locations[i]) == Err(Collect(lookup, locations).error);
    } else {
      CollectOk(lookup, init);
      assert lookup(locations[n]) == Err(Collect(lookup, locations).error);
    }
  }

  /** A failure for some locations is also the failure for any longer list of locations. */
  lemma {:induction false} CollectFailurePersists(lookup: Lookup, locations: seq<string>, k: nat)
    requires k <= |locations| && Collect(lookup, locations[..k]).Err?
    ensures Collect(lookup, locations) == Collect(lookup, locations[..k])
    decreases |locations| - k
  {
    if k < |locations| {
      assert locations[..k + 1][..k] == locations[..k];
      CollectLast(lookup, locations[..k + 1]);
      CollectFailurePersists(lookup, locations, k + 1);
    } else {
      assert locations[..k] == locations;
    }
  }

  lemma PutTwice<K, V>(m: OrderedMap<K, V>, k: K, v: V, w: V)
    ensures m.Put(k, v).Put(k, w) == m.Put(k, w)
  {
  }

  /** The inner loop of `get_weather_forecast`: reset the location's entry to `{}`, then add each day in turn. */
  method FillLocation(forecast: Forecast, location: string, entries: seq<DailyForecast>) returns (filled: Forecast)
    ensures filled == forecast.Put(location, FromPairs(DayPairs(entries)))
  {
    filled := forecast.Put(location, Empty());
    for j := 0 to |entries|
      invariant filled == forecast.Put(location, FromPairs(DayPairs(entries[..j])))
    {
      var day := entries[j];
      assert DayPairs(entries[..j + 1]) == DayPairs(entries[..j]) + [(day.date, ExtractDay(day))];
      PutTwice(forecast, location, FromPairs(DayPairs(entries[..j])), FromPairs(DayPairs(entries[..j + 1])));
      filled := filled.Put(location, filled.items[location].Put(day.date, ExtractDay(day)));
    }
    assert entries[..|entries|] == entries;
  }

  /**
   * `get_weather_forecast`: for each location, look up its key, fetch the 5-day
   * forecast, reset its entry to an empty dictionary and fill it from
   * `DailyForecasts[:days]`; any failure raises before a forecast is returned.
   */
  method GetWeatherForecast(api: ForecastApi, locations: seq<string>, days: int) returns (r: Result<Forecast, Failure>)
    ensures r == ForecastSpec(api, locations, days)
  {
    var forecast: Forecast := Empty();
    for i := 0 to |locations|
      invariant ForecastSpec(api, locations[..i], days) == Ok(forecast)
    {
      var location := locations[i];
      assert locations[..i + 1][..i] == locations[..i];
      assert locations[..i + 1][i] == location;
      var key := GetLocationKey(api, location);
      if key.Err? {
        CollectFailurePersists(LookupIn(api, days), locations, i + 1);
        return Err(key.error);
      }
      if key.value == "" {
        CollectFailurePersists(LookupIn(api, days), locations, i + 1);
        return Err(LocationNotFound(location));
      }
      match api.daily(key.value) {
        case RequestFailed(d) =>
          CollectFailurePersists(LookupIn(api, days), locations, i + 1);
          return Err(ForecastRequestFailed(location, d));
        case DecodeFailed(d) =>
          CollectFailurePersists(LookupIn(api, days), locations, i + 1);
          return Err(ResponseNotDecoded(location, d));
        case Fetched(body) =>
          forecast := FillLocation(forecast, location, SliceTo(body, days));
      }
    }
    assert locations[..|locations|] == locations;
    return Ok(forecast);
  }

  // ---------------------------------------------------------------- OpenStreetMap

  /** One element of the geocoder's response, with `lat` and `lon` already converted by `float()`. */
  datatype Place = Place(lat: Num, lon: Num)

  /** The Nominatim search endpoint, by location name. */
  type Geocoder = string -> Fetched<seq<Place>>

  /** `get_coordinates`: the first result's `(lat, lon)`, or an exception. */
  function GetCoordinates(geocoder: Geocoder, location: string): (r: Result<(Num, Num), Failure>)
    ensures r.Ok? <==> geocoder(location).Fetched? && geocoder(location).body != []
    ensures r.Ok? ==> r.value == (geocoder(location).body[0].lat, geocoder(location).body[0].lon)
    ensures geocoder(location) == Fetched([]) ==> r == Err(CoordinatesNotFound(location))
  {
    match geocoder(location)
    case RequestFailed(d) => Err(CoordinatesRequestFailed(location, d))
    case DecodeFailed(d) => Err(ResponseNotDecoded(location, d))
    case Fetched(places) =>
      if places == [] then Err(CoordinatesNotFound(location)) else Ok((places[0].lat, places[0].lon))
  }

  /** `[get_coordinates(location) for location in locations]`: evaluated left to right, the first failure raised. */
  function AllCoordinates(geocoder: Geocoder, locations: seq<string>): (r: Result<seq<(Num, Num)>, Failure>)
    ensures r.Ok? <==> forall i :: 0 <= i < |locations| ==> GetCoordinates(geocoder, locations[i]).Ok?
    ensures r.Ok? ==> (
      && |r.value| == |locations|
      && forall i :: 0 <= i < |locations| ==> GetCoordinates(geocoder, locations[i]) == Ok(r.value[i]))
    ensures r.Err? ==> exists i :: (
      && 0 <= i < |locations|
      && GetCoordinates(geocoder, locations[i]) == Err(r.error)
      && forall j :: 0 <= j < i ==> GetCoordinates(geocoder, locations[j]).Ok?)
  {
    if locations == [] then Ok([])
    else
      match GetCoordinates(geocoder, locations[0])
      case Err(e) => Err(e)
      case Ok(c) =>
        var rest := AllCoordinates(geocoder, locations[1..]);
        assert forall i :: 1 <= i < |locations| ==> locations[i] == locations[1..][i - 1];
        match rest
        case Err(e) =>
          assert exists i :: (
            && 1 <= i < |locations| && GetCoordinates(geocoder, locations[i]) == Err(e)
            && forall j :: 1 <= j < i ==> GetCoordinates(geocoder, locations[j]).Ok?) by {
            var i :| 0 <= i < |locations[1..]| && GetCoordinates(geocoder, locations[1..][i]) == Err(e)
              && forall j :: 0 <= j < i ==> GetCoordinates(geocoder, locations[1..][j]).Ok?;
            assert forall j :: 1 <= j < i + 1 ==> locations[j] == locations[1..][j - 1];
          }
          Err(e)
        case Ok(cs) => Ok([c] + cs)
  }

  // ---------------------------------------------------------------- GraphHopper

  /** The JSON body posted to the routing endpoint. */
  datatype RouteRequest = RouteRequest(
    points: seq<seq<Num>>, profile: string, locale: string,
    instructions: bool, calcPoints: bool, pointsEncoded: bool)

  /** One element of the response's `paths`; `pointsEncoded` is `str()` of its `points_encoded` entry. */
  datatype RoutePath = RoutePath(pointsEncoded: string)

  /** The routing response; `paths` is `None` when the key is missing. */
  datatype RouteResponse = RouteResponse(paths: Option<seq<RoutePath>>)

  type Router = RouteRequest -> Fetched<RouteResponse>

  /** `[[lon, lat] for lat, lon in coordinates]`. */
  function RequestPoints(coordinates: seq<(Num, Num)>): (points: seq<seq<Num>>)
    ensures |points| == |coordinates|
    ensures forall i :: 0 <= i < |points| ==> |points[i]| == 2
  {
    seq(|coordinates|, i requires 0 <= i < |coordinates| => [coordinates[i].1, coordinates[i].0])
  }

  /** Reads `(lat, lon)` pairs back out of `[lon, lat]` points. */
  function FromRequestPoints(points: seq<seq<Num>>): seq<(Num, Num)>
    requires forall i :: 0 <= i < |points| ==> |points[i]| == 2
  {
    seq(|points|, i requires 0 <= i < |points| => (points[i][1], points[i][0]))
  }

  /** The request lists every coordinate, in order, with its axes swapped: swapping back restores the input. */
  lemma RequestPointsRoundTrip(coordinates: seq<(Num, Num)>)
    ensures FromRequestPoints(RequestPoints(coordinates)) == coordinates
  {
  }

  function RouteRequestFor(coordinates: seq<(Num, Num)>): RouteRequest {
    RouteRequest(RequestPoints(coordinates), "car", "ru", true, true, false)
  }

  /** `f'{lat},{lon}'` for each coordinate. */
  function PointTexts(coordinates: seq<(Num, Num)>): (ts: seq<string>)
    ensures |ts| == |coordinates|
  {
    seq(|coordinates|, i requires 0 <= i < |coordinates| => coordinates[i].0.text + "," + coordinates[i].1.text)
  }

  const MapUrlBase := "https://graphhopper.com/maps/?"

  /** The map link built from the coordinates and the first path's `points_encoded` entry. */
  function MapUrl(coordinates: seq<(Num, Num)>, token: string): string {
    MapUrlBase + "point=" + Join(PointTexts(coordinates), "&point=")
      + "&vehicle=car" + "&locale=ru" + "&points_encoded=" + token
  }

  /** `generate_graphhopper_route_url`. */
  function GenerateRouteUrl(router: Router, coordinates: seq<(Num, Num)>): (r: Result<string, Failure>)
    ensures r.Ok? <==>
      var resp := router(RouteRequestFor(coordinates));
      resp.Fetched? && resp.body.paths.Some? && |resp.body.paths.value| > 0
    ensures r.Ok? ==> r.value == MapUrl(coordinates, router(RouteRequestFor(coordinates)).body.paths.value[0].pointsEncoded)
    ensures router(RouteRequestFor(coordinates)) in {Fetched(RouteResponse(None)), Fetched(RouteResponse(Some([])))} ==>
      r == Err(RouteNotFound)
  {
    match router(RouteRequestFor(coordinates))
    case RequestFailed(d) => Err(RouteRequestFailed(d))
    case DecodeFailed(d) => Err(Propagated(d))
    case Fetched(response) =>
      if response.paths.Some? && |response.paths.value| > 0
      then Ok(MapUrl(coordinates, response.paths.value[0].pointsEncoded))
      else Err(RouteNotFound)
  }

  /** The values of the `point` parameters of a map link, in order. */
  function PointParameters(params: seq<string>): seq<string> {
    if params == [] then []
    else (if "point=" <= params[0] then [params[0][6..]] else []) + PointParameters(params[1..])
  }

  function QueryPoints(url: string): seq<string>
    requires MapUrlBase <= url
  {
    PointParameters(Split(url[|MapUrlBase|..], '&'))
  }

  lemma {:induction false} PointParametersAppend(a: seq<string>, b: seq<string>)
    ensures PointParameters(a + b) == PointParameters(a) + PointParameters(b)
  {
    if a != [] {
      PointParametersAppend(a[1..], b);
      assert (a + b)[1..] == a[1..] + b;
    } else {
      assert a + b == b;
    }
  }

  function Prefixed(prefix: string, ts: seq<string>): (ps: seq<string>)
    ensures |ps| == |ts| && forall i :: 0 <= i < |ts| ==> ps[i] == prefix + ts[i]
  {
    seq(|ts|, i requires 0 <= i < |ts| => prefix + ts[i])
  }

  lemma {:induction false} JoinPrefixed(ts: seq<string>)
    requires |ts| >= 1
    ensures "point=" + Join(ts, "&point=") == Join(Prefixed("point=", ts), "&")
  {
    if |ts| > 1 {
      JoinPrefixed(ts[1..]);
      assert Prefixed("point=", ts)[1..] == Prefixed("point=", ts[1..]);
    }
  }

  lemma {:induction false} JoinSnoc(xs: seq<string>, y: string, sep: string)
    requires |xs| >= 1
    ensures Join(xs, sep) + sep + y == Join(xs + [y], sep)
  {
    if |xs| > 1 {
      JoinSnoc(xs[1..], y, sep);
      assert (xs + [y])[1..] == xs[1..] + [y];
    }
  }

  /**
   * The map link carries one `point=lat,lon` parameter per coordinate, in
   * input order: reading the `point` parameters back gives the coordinates'
   * texts, and splitting each at its comma gives the latitude and longitude.
   */
  lemma MapUrlRoundTrip(coordinates: seq<(Num, Num)>, token: string)
    requires |coordinates| >= 1
    requires forall i :: 0 <= i < |coordinates| ==>
      '&' !in coordinates[i].0.text && '&' !in coordinates[i].1.text &&
      ',' !in coordinates[i].0.text && ',' !in coordinates[i].1.text
    requires '&' !in token
    ensures MapUrlBase <= MapUrl(coordinates, token)
    ensures QueryPoints(MapUrl(coordinates, token)) == PointTexts(coordinates)
    ensures forall i :: 0 <= i < |coordinates| ==>
      Split(PointTexts(coordinates)[i], ',') == [coordinates[i].0.text, coordinates[i].1.text]
  {
    var ts := PointTexts(coordinates);
    var tail := TailParameters(token);
    var params := Prefixed("point=", ts) + tail;
    MapUrlParameters(coordinates, token);
    var url := MapUrl(coordinates, token);
    assert url[|MapUrlBase|..] == Join(params, "&");
    PointTextsSplit(coordinates);
    ParametersHaveNoAmpersand(coordinates, token);
    SplitJoin(params, '&');
    PointParametersAppend(Prefixed("point=", ts), tail);
    PointParametersOfPrefixed(ts);
    TailHasNoPoints(token);
  }

  function TailParameters(token: string): seq<string> {
    ["vehicle=car", "locale=ru", "points_encoded=" + token]
  }

  lemma TailHasNoPoints(token: string)
    ensures PointParameters(TailParameters(token)) == []
  {
    var tail := TailParameters(token);
    assert tail[2][5] == 's' && !("point=" <= tail[2]);
    assert PointParameters(tail[2..]) == [] by { assert tail[2..][1..] == []; }
    assert tail[1..][1..] == tail[2..];
    assert !("point=" <= tail[1]);
    assert PointParameters(tail[1..]) == [];
    assert !("point=" <= tail[0]);
  }

  lemma ParametersHaveNoAmpersand(coordinates: seq<(Num, Num)>, token: string)
    requires forall i :: 0 <= i < |coordinates| ==> '&' !in coordinates[i].0.text && '&' !in coordinates[i].1.text
    requires '&' !in token
    ensures forall p :: p in Prefixed("point=", PointTexts(coordinates)) + TailParameters(token) ==> '&' !in p
  {
    var ts := PointTexts(coordinates);
    forall p | p in Prefixed("point=", ts) + TailParameters(token) ensures '&' !in p {
      if p in Prefixed("point=", ts) {
        var i :| 0 <= i < |ts| && p == "point=" + ts[i];
        assert p == "point=" + coordinates[i].0.text + "," + coordinates[i].1.text;
      } else {
        assert p in TailParameters(token);
      }
    }
  }

  /** Each point text splits at its one comma into latitude and longitude. */
  lemma PointTextsSplit(coordinates: seq<(Num, Num)>)
    requires forall i :: 0 <= i < |coordinates| ==> ',' !in coordinates[i].0.text && ',' !in coordinates[i].1.text
    ensures forall i :: 0 <= i < |coordinates| ==>
      Split(PointTexts(coordinates)[i], ',') == [coordinates[i].0.text, coordinates[i].1.text]
  {
    forall i | 0 <= i < |coordinates|
      ensures Split(PointTexts(coordinates)[i], ',') == [coordinates[i].0.text, coordinates[i].1.text]
    {
      var pair := [coordinates[i].0.text, coordinates[i].1.text];
      SplitJoin(pair, ',');
      assert Join(pair, [',']) == PointTexts(coordinates)[i];
    }
  }

  /** The map link is its base followed by its query parameters joined with `&`. */
  lemma MapUrlParameters(coordinates: seq<(Num, Num)>, token: string)
    requires |coordinates| >= 1
    ensures MapUrl(coordinates, token)
      == MapUrlBase + Join(Prefixed("point=", PointTexts(coordinates)) + TailParameters(token), "&")
  {
    var ts := PointTexts(coordinates);
    var ps := Prefixed("point=", ts);
    JoinPrefixed(ts);
    JoinThree(ps, "vehicle=car", "locale=ru", "points_encoded=" + token, "&");
    ParameterSeparators();
    Regroup(MapUrlBase, "point=", Join(ts, "&point="), Join(ps, "&"),
      "&vehicle=car", "&locale=ru", "&points_encoded=", "&", "vehicle=car", "locale=ru", "points_encoded=", token);
  }

  lemma ParameterSeparators()
    ensures "&vehicle=car" == "&" + "vehicle=car"
    ensures "&locale=ru" == "&" + "locale=ru"
    ensures "&points_encoded=" == "&" + "points_encoded="
  {
  }

  lemma Regroup(base: string, p: string, j1: string, joined: string, s1: string, s2: string, s3: string,
                amp: string, v1: string, v2: string, v3: string, token: string)
    requires p + j1 == joined
    requires s1 == amp + v1 && s2 == amp + v2 && s3 == amp + v3
    ensures base + p + j1 + s1 + s2 + s3 + token == base + (joined + amp + v1 + amp + v2 + amp + (v3 + token))
  {
  }

  lemma JoinThree(xs: seq<string>, a: string, b: string, c: string, sep: string)
    requires |xs| >= 1
    ensures Join(xs + [a, b, c], sep) == Join(xs, sep) + sep + a + sep + b + sep + c
  {
    JoinSnoc(xs, a, sep);
    JoinSnoc(xs + [a], b, sep);
    JoinSnoc(xs + [a] + [b], c, sep);
    assert xs + [a] + [b] + [c] == xs + [a, b, c];
  }

  lemma {:induction false} PointParametersOfPrefixed(ts: seq<string>)
    ensures PointParameters(Prefixed("point=", ts)) == ts
  {
    if ts != [] {
      PointParametersOfPrefixed(ts[1..]);
      assert Prefixed("point=", ts)[1..] == Prefixed("point=", ts[1..]);
      assert ("point=" + ts[0])[6..] == ts[0];
    }
  }
}
