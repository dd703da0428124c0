# Route weather bot — a Dafny model

A Telegram bot that asks for a route and replies with the weather along it.
The user sends `/weather`, then a start point, an end point and an optional
comma-separated list of waypoints, and then presses a button for 1, 3 or 5
days. The bot then:

- fetches an AccuWeather daily forecast for every location on the route;
- sends three charts per location (temperature, precipitation, wind);
- sends a GraphHopper map link built from OpenStreetMap coordinates;
- sends a text summary;
- and ends the conversation.

The model has five modules:

- `Wrappers`: `Option` and `Result`.
- `PyText`: the Python string operations the bot relies on: `strip`,
  `lower`, `title`, `split`, `join`, `isdigit` and `int`.
- `OrderedMaps`: a dictionary that remembers insertion order, as Python's
  `dict` does. Re-assigning a key keeps its place.
- `WeatherService`: the HTTP client in `weather_service.py`.
  - Each endpoint is a function argument. It returns `Fetched(body)`,
    `RequestFailed` (a `requests.RequestException`) or `DecodeFailed` (a
    `ValueError` from `.json()`).
  - The model states what the client does with each outcome.
  - `GetWeatherForecast` is an imperative method: a loop over the locations,
    with `FillLocation` holding the inner loop over the days. It is proved
    equal to `ForecastSpec`, a left fold `Collect` of the per-location lookup
    `ForecastFor`. The lemmas about `Collect` hold for any lookup function,
    and the lemmas about `ForecastSpec` state the client's guarantees.
- `App`: the dialogue in `app.py`.
  - `FormState` has the `WeatherForm` states, and `Idle` stands for aiogram's
    "no state".
  - `Transition` says what one update does to a chat's session and which
    replies it sends.
  - The class `WeatherChat` holds one chat's FSM state, its FSM data and the
    messages sent to it. Its handler methods are proved to act as
    `Transition` says. `ProcessDays` calls `Report`, which keeps the loops of
    `process_days`, and is proved against `DaysReplies`.
  - `Transition` takes what `process_days` sends as a parameter (a
    `Reporter`), so the dialogue lemmas hold whatever the services answer.
    `HandleUpdate` is proved against `Transition` with `DaysReporter`, which
    is `DaysReplies`.

## Model

| member | source | states |
|---|---|---|
| WeatherService.FormatCityName | weather_service.py:72-76 | The name has no surrounding whitespace and is title-cased: a letter following a letter is lower-case, every other letter upper-case. It is empty exactly when the input is blank. |
| WeatherService.FormatCityNameIdempotent | weather_service.py:72-76 | Formatting an already formatted name changes nothing. |
| WeatherService.FormatCityNameKeepsUncased | weather_service.py:72-76 | Every non-letter of the formatted name occurs in the input, so formatting never introduces a comma or a space. |
| PyText.Strip | weather_service.py:76 | `strip()` returns a text with no whitespace at either end, no longer than its input, made of the input's characters. |
| PyText.StripOfPadded | weather_service.py:76 | Whatever whitespace surrounds a trimmed text, `strip()` returns exactly that text. |
| PyText.StripIdempotent | weather_service.py:76 | Stripping twice is stripping once. |
| PyText.TitleFixedPoints | weather_service.py:76 | `title()` always yields a title-cased text and leaves a text unchanged exactly when it is already title-cased. |
| PyText.TitleIdempotent | weather_service.py:76 | Applying `title()` twice is applying it once. |
| PyText.TitleOfLower | app.py:86-90 | Lower-casing before `title()` makes no difference, so the lower-cased waypoint answer still yields capitalised names. |
| PyText.Split | app.py:90 | `split(',')` yields at least one part, and no part contains the separator. |
| PyText.JoinSplit | app.py:90 | Joining the parts of `split(c)` with `c` rebuilds the text. |
| PyText.SplitJoin | weather_service.py:100 | Splitting a `c`-join of `c`-free parts gives back the parts. |
| OrderedMaps.FromPairsShape | weather_service.py:40-48 | Assigning pairs one by one into a dict gives keys in order of first assignment, each once. Each key holds the value of its last assignment. |
| WeatherService.GetLocationKey | weather_service.py:8-23 | The key is the first search result's `Key`, returned exactly when the search succeeds with a non-empty list. An empty list raises "Локация … не найдена.". |
| WeatherService.DateMapOfShape | weather_service.py:40-48 | A location's inner dict holds at most `days` dates, all from the front of `DailyForecasts`, each once. With distinct upstream dates it holds exactly the first min(days, n) dates, in order, each with its four figures. |
| WeatherService.ForecastForValid | weather_service.py:30-52 | A successful per-location result is a well-formed ordered map. |
| WeatherService.ForecastForSucceeds | weather_service.py:30-52 | One location succeeds exactly when its search returns a non-empty list with a non-empty first key and the daily request succeeds. The result is then the inner dict built from that response. |
| WeatherService.ForecastSpecSucceeds | weather_service.py:25-53 | The forecast is returned exactly when every location succeeds. Its keys are then the locations without repeats, in order of first request, and each maps to that location's own date map. |
| WeatherService.ForecastSpecFails | weather_service.py:25-53 | On failure, the exception raised is the one for the first location that fails; every earlier location succeeded. |
| WeatherService.CollectOk | weather_service.py:29-52 | For any per-location lookup, the loop completes exactly when every location's lookup succeeds. |
| WeatherService.CollectCovers | weather_service.py:29-52 | When the loop completes, the dict's keys are the locations without repeats, in order of first request, and each maps to the result of its own lookup. |
| WeatherService.CollectFails | weather_service.py:29-52 | When the loop raises, the exception is the first failing location's; every earlier lookup succeeded. |
| WeatherService.CollectFailurePersists | weather_service.py:29-53 | Once a location fails, later locations change nothing: the exception leaves the loop. |
| WeatherService.FillLocation | weather_service.py:40-48 | The inner loop leaves the location mapped to the dict built from the days in order, and every other entry as it was. |
| WeatherService.GetWeatherForecast | weather_service.py:25-53 | The loop over locations, which resets each entry to `{}` and then fills it, returns exactly `ForecastSpec`. |
| WeatherService.GetCoordinates | weather_service.py:55-70 | The coordinates are the first result's `(lat, lon)`, returned exactly when the geocoder succeeds with a non-empty list. An empty list raises "Координаты для локации … не найдены.". |
| WeatherService.AllCoordinates | app.py:204 | The list comprehension succeeds exactly when every location is geocoded. It then holds each location's coordinates in route order; otherwise it raises the first location's failure. |
| WeatherService.RequestPointsRoundTrip | weather_service.py:82-89 | The request lists every coordinate as `[lon, lat]`, in order; swapping back restores the input. |
| WeatherService.GenerateRouteUrl | weather_service.py:78-104 | A link is returned exactly when the router answers with a non-empty `paths`, and it is the map URL built from the first path's `points_encoded`. A missing or empty `paths` raises "Маршрут не найден.". |
| WeatherService.MapUrlRoundTrip | weather_service.py:100 | When coordinates have no `&` or `,` and the token has no `&`, the link's `point` parameters are exactly the `lat,lon` texts of the coordinates, in order, each splitting back into its two numbers. |
| App.WeatherCommandIff | app.py:49-51 | A message whose first word, after leading whitespace, is `/name` starts the form exactly when `name` lower-cases to `weather`. |
| App.MentionedWeatherCommandIff | app.py:49-51 | The same holds for `/name@bot`. |
| App.WaypointNames | app.py:90 | There are never more names than segments. |
| App.WaypointNamesValid | app.py:90 | Every name is non-empty, trimmed and title-cased. |
| App.WaypointNamesCommaFree | app.py:90 | Names built from comma-free segments contain no comma. |
| App.WaypointNamesAppend | app.py:90 | The names keep the segments' order: the names of concatenated segment lists are the concatenated names. |
| App.WaypointNamesEmpty | app.py:90 | No name is produced exactly when every segment is blank. |
| App.ParseWaypoints | app.py:86-90 | Every stored waypoint is non-empty, trimmed, title-cased and comma-free. |
| App.ParseWaypointsEmpty | app.py:86-90 | The answer "нет", in any letter case and with any surrounding whitespace, gives no waypoints. No waypoints are stored exactly when the answer is "нет" or has no non-blank segment, and never more names than segments. |
| App.Route | app.py:113 | The route is the start point, then the waypoints in order, then the end point. |
| App.ChartPhotos | app.py:119-195 | Three photos are sent per location. |
| App.ChartPhotosAt | app.py:182-195 | Photos 3k, 3k+1 and 3k+2 are the temperature, precipitation and wind charts of the k-th location. |
| App.SummaryFollowsRoute | app.py:118-125 | The summary has one heading per distinct route location, in order of first appearance. |
| App.RouteStepReplyForms | app.py:202-212 | When every point is geocoded, `all(coordinates)` holds, so the "coordinates unavailable" branch is never taken. The reply is then the link or the routing error. Otherwise the reply names the first geocoding failure, whatever the router would answer. |
| App.DaysReplies | app.py:116-216 | Pressing a day button always sends at least one message. |
| App.DaysRepliesOrder | app.py:116-216 | A failed forecast sends only the forecast error, naming the first failing location. A successful one sends three photos per distinct route location in route order, then exactly one route-step message, then the summary last. |
| App.Transition | app.py:49-218 | For any reporter, every update keeps the session consistent: the stored answers match the state, names are trimmed, and waypoints are non-blank and comma-free. |
| App.TransitionMovesForward | app.py:49-218 | A handled update moves the chat to the next state in declaration order and sends something. From `days` it returns to no state with the data cleared, whatever the outcome. Any other update changes nothing and sends nothing. |
| App.Run | app.py:49-218 | The session stays consistent over any sequence of updates. |
| App.CompleteDialogue | app.py:49-218 | For any reporter, `/weather`, three answers and a day button visit StartPoint, EndPoint, IntermediatePoints, Days and then no state, with the data cleared. They send the four prompts and then what the reporter gives for the route the answers describe and the pressed day count. |
| App.DayButtonsAccepted | app.py:92-100 | Every offered button passes the `isdigit` filter and stores 1, 3 or 5 days. |
| App.AppendDays | app.py:121-125 | The inner loop appends the four lines of every date of one location, in order. |
| App.WeatherChat.constructor | app.py:19-20 | A new chat has no state, no data and no messages. |
| App.WeatherChat.CmdWeather | app.py:49-56 | The handler sends the start prompt and enters the start-point state, keeping the data. |
| App.WeatherChat.ProcessStartPoint | app.py:58-67 | The handler stores the formatted start point, sends the end-point prompt and moves to the next state. |
| App.WeatherChat.ProcessEndPoint | app.py:69-78 | The handler stores the formatted end point, sends the waypoint prompt and moves to the next state. |
| App.WeatherChat.ProcessIntermediatePoints | app.py:80-97 | The handler stores the parsed waypoints, sends the day keyboard and moves to the next state. |
| App.WeatherChat.ProcessDays | app.py:99-218 | The chat receives exactly `DaysReplies` for the stored route and the pressed day count, and the session is finished. |
| App.Report | app.py:116-214 | On success the chat receives each location's three charts in forecast order, then the route-step message, then the summary. |
| App.WeatherChat.HandleUpdate | app.py:49-101 | Dispatching by state does exactly what `Transition` states: same new session, same replies. |

## Left out

- Telegram transport: sending, keyboards as markup and the `/start` and `/help` handlers (app.py:29-47) are not modelled. Replies are values appended to the chat's outbox.
- IsWeatherCommand: the check that an `@mention` names this bot is not modelled. Any mention is accepted.
- Charts: the plotly figures, the PNG files and their removal are not modelled. Only the three photos per location and their order are. A failure while drawing or sending, which the outer `except` would report as a forecast error, is not modelled either.
- Missing JSON fields: `KeyError` from missing fields (`Key`, `DailyForecasts`, `Temperature`, `lat`, `points_encoded`) is not modelled. The response types always carry those fields.
- Decode errors: a body that fails to decode is modelled as `ValueError`, as in `requests` before 2.27. Newer versions raise a `JSONDecodeError` that is also a `RequestException`, so the request-error message would be sent instead.
- Numbers from the APIs are kept as the text Python prints for them. `float()` and number formatting are not modelled. `Place` already holds converted numbers, so the `ValueError` that `float()` raises on a malformed `lat` or `lon` (weather_service.py:66), reported as "Ошибка при обработке ответа API для …" (weather_service.py:69-70), is not modelled.
- Request URLs, API keys, the `User-Agent` header and query escaping are not modelled. Each endpoint is a function of the location name, the location key or the request body.
- Endpoints are deterministic functions: the same request always gets the same answer.
- Case mapping covers ASCII and the basic Cyrillic block (U+0400–U+045F). Every character outside these ranges, accented Latin letters included, is treated as uncased, so `Title` gives "ZüRich" where Python gives "Zürich". `isdigit`/`int` accept ASCII digits only.
- Day counts: the day handler accepts any digit string in the callback data, not only the offered 1, 3 and 5. The model follows the code.
- Summary text: the summary is built as a sequence of `SummaryLine` values and rendered once by `Render`. Rendering gives the text that the source's string concatenation produces, line by line.
- HandleUpdate: updates of one chat are handled one at a time, each handler running to completion. aiogram runs handlers as concurrent tasks, and `process_days` only finishes the session after its last send (app.py:218). A second update handled while `process_days` waits on a send is not modelled: for example, a second day-button press that still finds the chat in `days` and starts a second report.
- DaysRepliesOrder: the summary is always sent as the last message. If that send fails, the outer `except` (app.py:215-216) sends "Ошибка при получении прогноза: …" after the photos and the route-step message. This is not modelled. One way the send fails is a summary over Telegram's 4096-character limit, as with 5 days for about 7 locations.
