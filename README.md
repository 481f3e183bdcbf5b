# SlopeMate weather core, modelled in Dafny

SlopeMate shows the weather at a fixed list of Korean ski resorts for one chosen day.
This project models the parts of the app that make decisions:

- **ResortWeatherStore.loadWeather**. It turns the chosen day into a signed day offset from today in Seoul. For each resort it then picks a strategy:
  - offset 0: the current reading, with today's sunrise and sunset;
  - offset 1 to 7: the first daily forecast on that day;
  - any other offset: "no data", without a request.

  It runs one task per resort. It folds their outcomes, in completion order, into a fresh map of readings plus the last error. It then replaces `weatherByResort`, `isLoading` and `alertMessage`.
- **DateManager**. It holds the chosen date and only lets it move within today through today + 7 days.
- **WeatherDisplayModel**. It covers the three initializers, the Korean description table, the icon-symbol mapping, the icon URL and the temperature colour bands.
- **OperatingHours**. It builds the summary and detail strings of a resort's opening hours.
- **WeatherService**. It covers the error cases and their messages, how an HTTP reply is classified, and the order in which the API key is looked up.

Files, one module each:

| file | module | models |
|---|---|---|
| wrappers.dfy | Wrappers | `Option`, `Result` |
| text.dfy | Text | `String.contains`, `lowercased()`, `"\(Int)"` |
| seoul_time.dfy | SeoulTime | the Gregorian calendar fixed to Asia/Seoul |
| resort.dfy | Resorts | `OperatingHours`, `Resort` |
| weather_models.dfy | WeatherModels | provider records, `WeatherDisplayModel` |
| weather_service.dfy | WeatherServices | `WeatherServiceError`, `WeatherService` |
| date_manager.dfy | DateNavigation | `DateManager` |
| resort_weather_store.dfy | WeatherStore | `ResortWeatherStore` |

How the model abstracts the runtime:

- An instant is an integer number of seconds since the epoch.
- A Seoul day number is `(t + 9h) / 86400`. Asia/Seoul has no daylight saving, so adding N days is exactly `N * 86400` seconds.
- Every `Date()` call becomes a `now` parameter. Where one operation reads the clock more than once, the reads share that one `now`.
- What the network answers in one run of `loadWeather` is that run's `answers` argument: a function from a resort to what fetching its bundle returns. Each run gets its own.
- The task group's completion order is `order`, a permutation of the catalog positions.
- A fetch takes two inputs: the HTTP exchange, and what the JSON decoder makes of the body.
- `FetchError` is an error the store can receive: one of the service's own, or a transport or decoding error known only by its description.

Two behaviours of the code that are easy to miss:

- Errors raised by URLSession or by the JSON decoder pass through the fetch unchanged, beside the service's own five error cases. The model keeps them as `OtherError`.
- An empty resort list returns early: it clears the readings and leaves `isLoading` and `alertMessage` untouched.

## Model

| member | source | states |
|---|---|---|
| WeatherStore.DaysOffset | SlopeMate/ViewModels/ResortWeatherStore.swift:35-37 | the offset is the Seoul day number of the selected date minus that of now |
| WeatherStore.Classify | SlopeMate/ViewModels/ResortWeatherStore.swift:47-87 | offset 0 is today, 1..7 is a forecast day with that offset, below 0 is past, above 7 is too far; exactly one holds, and the chain's last `else` is proved unreachable |
| WeatherStore.WindowDaysAreFetched | SlopeMate/ViewModels/ResortWeatherStore.swift:47-58 | every date in the date picker's window takes the today or forecast path; the current instant takes the today path |
| WeatherStore.FirstOnDay | SlopeMate/ViewModels/ResortWeatherStore.swift:66-71 | returns the position of the FIRST daily entry whose Seoul midnight is the selected midnight, and none only when no entry is on that day |
| WeatherStore.FirstDaily | SlopeMate/ViewModels/ResortWeatherStore.swift:55 | `daily.first`: present exactly when the list is non-empty, and then the head |
| WeatherStore.ResortTask | SlopeMate/ViewModels/ResortWeatherStore.swift:45-91 | out-of-range offsets give no-data; a failed fetch is the task's failure unchanged; today combines `current` with `daily.first`; a forecast day uses the first matching entry, else no-data even though the fetch succeeded |
| WeatherStore.UnsupportedDayFetchesNothing | SlopeMate/ViewModels/ResortWeatherStore.swift:79-84 | for offsets below 0 or above 7 the outcome is the same whatever the service would answer: the service is not consulted |
| WeatherStore.ForecastDaySucceedsIffDayListed | SlopeMate/ViewModels/ResortWeatherStore.swift:58-78 | a forecast day succeeds iff the fetch succeeds and some entry falls on the selected day, and the reading's timestamp is on that day |
| WeatherStore.Outcomes | SlopeMate/ViewModels/ResortWeatherStore.swift:43-92 | one outcome per resort, each that resort's task |
| WeatherStore.RunTasks | SlopeMate/ViewModels/ResortWeatherStore.swift:44-92 | the fan-out loop produces exactly the per-resort outcomes, in catalog order |
| WeatherStore.Arrivals | SlopeMate/ViewModels/ResortWeatherStore.swift:94 | the k-th completed task is the resort at position order[k], with its id and its outcome |
| WeatherStore.CollectArrivals | SlopeMate/ViewModels/ResortWeatherStore.swift:39-101 | the `for await` fold yields the snapshot of all successes and the most recent failure, starting from an empty map and no error |
| WeatherStore.AlertFor | SlopeMate/ViewModels/ResortWeatherStore.swift:107-109 | there is an alert iff an error was kept, and it is that error's localized description |
| WeatherStore.SnapshotKeys | SlopeMate/ViewModels/ResortWeatherStore.swift:94-101 | the snapshot's keys are exactly the ids that arrived with a success; failed resorts have no entry |
| WeatherStore.SnapshotSize | SlopeMate/ViewModels/ResortWeatherStore.swift:95-100 | the snapshot has no more entries than there were completed tasks |
| WeatherStore.SnapshotValues | SlopeMate/ViewModels/ResortWeatherStore.swift:96-97 | with distinct ids, each success's reading is the one stored under its id |
| WeatherStore.LastErrorIsLastFailure | SlopeMate/ViewModels/ResortWeatherStore.swift:98-99 | the kept error is absent iff every task succeeded; otherwise it is a failure after which only successes arrived |
| WeatherStore.SnapshotIsPerResort | SlopeMate/ViewModels/ResortWeatherStore.swift:94-104 | in any completion order, resort i has an entry iff its task succeeded, the entry is its own reading, every key is a resort id, and there are at most as many entries as resorts |
| WeatherStore.SnapshotIndependentOfOrder | SlopeMate/ViewModels/ResortWeatherStore.swift:43-104 | two completion orders of the same outcomes publish the same snapshot |
| WeatherStore.AlertReportsLaterOfTwoFailures | SlopeMate/ViewModels/ResortWeatherStore.swift:98-109 | of two failures, the alert reports the one that completes last, so the alert depends on completion order |
| WeatherStore.ResortWeatherStore.constructor | SlopeMate/ViewModels/ResortWeatherStore.swift:8-24 | a new store has no readings, is not loading and has no alert |
| WeatherStore.ResortWeatherStore.BeginLoad | SlopeMate/ViewModels/ResortWeatherStore.swift:32-33 | while a run's tasks are in flight the loading flag is up, the alert is cleared and the previous readings stay visible |
| WeatherStore.ResortWeatherStore.Publish | SlopeMate/ViewModels/ResortWeatherStore.swift:104-109 | the snapshot replaces the readings, the flag drops, and the alert becomes the kept error's message, or stays as it was when no error was kept |
| WeatherStore.ResortWeatherStore.LoadWeather | SlopeMate/ViewModels/ResortWeatherStore.swift:26-110 | an empty list clears the readings and leaves flag and alert as they were; otherwise the run passes through the `BeginLoad` state, and at its end the readings are replaced by the folded snapshot of this run only, the flag is down and the alert is the last failure's message or none |
| DateNavigation.DateManager.constructor | SlopeMate/ViewModels/DateManager.swift:24-30 | the reference instant is stored unchanged |
| DateNavigation.DateManager.MinDate | SlopeMate/ViewModels/DateManager.swift:36-38 | a Seoul midnight at most a day before now: the start of today |
| DateNavigation.DateManager.MaxDate | SlopeMate/ViewModels/DateManager.swift:40-43 | the Seoul midnight seven days after `minDate`, on day today + 7 |
| DateNavigation.DateManager.Move | SlopeMate/ViewModels/DateManager.swift:45-59 | if the candidate's day is from today through today + 7, the selection moves by exactly `days` days and keeps its time of day; otherwise nothing changes |
| DateNavigation.DateManager.ResetToToday | SlopeMate/ViewModels/DateManager.swift:61-63 | the selection becomes now itself, not its midnight, and lies in the window |
| DateNavigation.InWindow | SlopeMate/ViewModels/DateManager.swift:49-56 | the day-number range today..today+7 holds iff the instant's midnight is neither before today's midnight nor after `maxDate`'s, as `move(by:)` compares them |
| DateNavigation.WindowDayNumbers | SlopeMate/ViewModels/DateManager.swift:36-43 | the window lists eight day numbers |
| DateNavigation.WindowIsEightDays | SlopeMate/ViewModels/DateManager.swift:36-43 | the window is eight distinct ascending days, from `minDate`'s through `maxDate`'s, and an instant is in it iff its day is one of them |
| DateNavigation.MoveCanReturnToToday | SlopeMate/ViewModels/DateManager.swift:45-58 | from any selection, even one outside the window, one move reaches today, because only the candidate is checked |
| SeoulTime.StartOfDay | SlopeMate/ViewModels/ResortWeatherStore.swift:16-20 | a Seoul midnight no later than t and less than a day before it, on t's day |
| SeoulTime.AddingDays | SlopeMate/ViewModels/DateManager.swift:46 | adding N calendar days moves the day number by N and keeps the time of day |
| SeoulTime.StartOfDayMonotone | SlopeMate/ViewModels/DateManager.swift:49-54 | comparing two midnights is comparing their day numbers |
| SeoulTime.DaysBetween | SlopeMate/ViewModels/ResortWeatherStore.swift:37 | the day difference of two midnights is the difference of their day numbers |
| Text.Contains | SlopeMate/Services/WeatherService.swift:80-81 | a key at the front of the text is found, and a found key is never longer than the text |
| Text.ContainsIffOccurs | SlopeMate/Services/WeatherService.swift:80-81 | the substring search succeeds iff the key occurs at some position |
| Text.Lowercased | SlopeMate/Models/WeatherModels.swift:119 | same length, each ASCII capital replaced by its small letter |
| Text.CaselessKeyUnaffectedByLowercasing | SlopeMate/Models/WeatherModels.swift:119-131 | a key without ASCII letters is found in the lowercased text iff it is found in the original |
| Text.IntString | SlopeMate/Services/WeatherService.swift:21-22 | the interpolation starts with a minus sign iff the integer is negative, and is otherwise made of decimal digits with no leading zero (zero is "0") |
| Text.IntStringRoundTrip | SlopeMate/Services/WeatherService.swift:21-22 | an interpolated integer reads back as the same integer |
| Text.IntStringInjective | SlopeMate/Services/WeatherService.swift:21-22 | different integers interpolate to different strings |
| Resorts.Simple | SlopeMate/Models/Resort.swift:9-15 | day hours as given, no night and no late-night session |
| Resorts.ShortSummary | SlopeMate/Models/Resort.swift:18-23 | the bare day hours without a night session, "주간 " + day hours with one |
| Resorts.ShortSummaryIgnoresLateNight | SlopeMate/Models/Resort.swift:18-23 | the summary depends on the night session only through its presence, never on the late-night session |
| Resorts.BuildDetailText | SlopeMate/Models/Resort.swift:26-35 | the built string is the labelled sessions (day, then night if present, then late night if present) joined by a vertical-bar separator with a space on each side |
| Resorts.DetailTextStartsWithDay | SlopeMate/Models/Resort.swift:27 | the detail text always starts with "주간 " + day hours, and is exactly that when there are no other sessions |
| Resorts.DetailSegmentsCount | SlopeMate/Models/Resort.swift:28-34 | a night segment iff a night session, a late-night segment iff a late-night session, in that order |
| Resorts.SimpleDetailText | SlopeMate/Models/Resort.swift:9-35 | `simple(h)` has detail text "주간 " + h and summary h |
| WeatherModels.TranslateDescription | SlopeMate/Models/WeatherModels.swift:215-259 | a listed description maps to the table's wording; any other text is returned unchanged |
| WeatherModels.TableValuesAreFixedPoints | SlopeMate/Models/WeatherModels.swift:216-257 | every wording in the table is either not a key or a key mapping to itself |
| WeatherModels.TranslateIdempotent | SlopeMate/Models/WeatherModels.swift:215-259 | translating twice equals translating once |
| WeatherModels.DisplayDescription | SlopeMate/Models/WeatherModels.swift:163-164 | no conditions give "정보 없음"; otherwise the first condition's text, translated; the result is already a fixed point of the translation |
| WeatherModels.DisplayIcon | SlopeMate/Models/WeatherModels.swift:166 | no conditions give "01d"; otherwise the first condition's icon |
| WeatherModels.FromCurrent | SlopeMate/Models/WeatherModels.swift:161-181 | current temperature, feels-like, wind, humidity and time; sun times from today's daily entry when present, else both the placeholder now |
| WeatherModels.FromDaily | SlopeMate/Models/WeatherModels.swift:184-197 | the day temperature, the day feels-like, the entry's own sun times and timestamp |
| WeatherModels.FromHistorical | SlopeMate/Models/WeatherModels.swift:200-213 | the historical values, with both sun times always the placeholder now |
| WeatherModels.IconURL | SlopeMate/Models/WeatherModels.swift:77-81 | no URL iff the icon code is empty; otherwise the provider's 2x image for that code |
| WeatherModels.IconURLInjective | SlopeMate/Models/WeatherModels.swift:77-81 | different icon codes never share a URL |
| WeatherModels.IconPrefix | SlopeMate/Models/WeatherModels.swift:86 | the first two characters of the code, or all of a shorter code |
| WeatherModels.DescriptionSymbol | SlopeMate/Models/WeatherModels.swift:118-134 | the fallback gives one of the seven symbols; "sun.max.fill" iff the text contains 맑음 or 청명, and "cloud.sun.fill" iff it contains none of the seven keywords |
| WeatherModels.SystemIconName | SlopeMate/Models/WeatherModels.swift:84-136 | the result is always one of the seven symbols |
| WeatherModels.SystemIconNameByTables | SlopeMate/Models/WeatherModels.swift:86-134 | a known prefix (01, 02, 03/04, 09/10, 11, 13, 50) decides through the prefix table; any other prefix falls back to the first keyword, in the order 맑음, 청명, 구름, 비, 눈, 천둥, 안개, that the description contains, with cloud.sun.fill as the default |
| WeatherModels.FallbackIgnoresLowercasing | SlopeMate/Models/WeatherModels.swift:118-134 | lowercasing the description never changes the fallback symbol |
| WeatherModels.FirstKeywordSymbolUnrolled | SlopeMate/Models/WeatherModels.swift:120-134 | the fallback's chain of tests is the first-match over the keyword list |
| WeatherModels.IconColorFor | SlopeMate/Models/WeatherModels.swift:139-154 | six disjoint bands: below -10, [-10,0), [0,10), [10,20), [20,30), from 30 |
| WeatherModels.IconColorIsTenDegreeStep | SlopeMate/Models/WeatherModels.swift:139-154 | the band is the ten-degree step counted from -20, clamped to the six colours |
| WeatherModels.IconColorMonotone | SlopeMate/Models/WeatherModels.swift:139-154 | a warmer temperature never gets a colder colour |
| WeatherServices.ErrorDescription | SlopeMate/Services/WeatherService.swift:15-28 | every case has a non-empty message, and the HTTP message embeds the status code |
| WeatherServices.ErrorDescriptionRoundTrip | SlopeMate/Services/WeatherService.swift:15-28 | each message can be read back to the error it reports, the HTTP code included |
| WeatherServices.ErrorDescriptionInjective | SlopeMate/Services/WeatherService.swift:15-28 | different errors never share a message |
| WeatherServices.LocalizedDescription | SlopeMate/Services/WeatherService.swift:8-28 | a service error is described by its own message; any other error by its own description |
| WeatherServices.StatusError | SlopeMate/Services/WeatherService.swift:66-86 | passes iff the reply is HTTP with a 2xx status; a 401 is a missing key iff the UTF-8 body contains "Invalid API key", else a missing subscription; anything else is an HTTP error with the status, or -1 for a reply that is not HTTP |
| WeatherServices.StatusErrorKinds | SlopeMate/Services/WeatherService.swift:66-86 | the check never reports a bad URL or missing data; a missing key only for a 401 that says so; an HTTP error never carries a 2xx or 401 code, and carries -1 only for a reply that is not HTTP or has status -1 |
| WeatherServices.ResolveAPIKey | SlopeMate/Services/WeatherService.swift:145-161 | a non-empty override, else a non-empty Info.plist key, else a non-empty environment key; empty iff all three are missing or empty |
| WeatherServices.ResolveAPIKeyIsFirstNonEmpty | SlopeMate/Services/WeatherService.swift:145-161 | the lookup is the first non-empty entry of [override, Info.plist, environment] |
| WeatherServices.MakeWeatherService | SlopeMate/Services/WeatherService.swift:36-44 | the service's key is the first non-empty source |
| WeatherServices.Fetch | SlopeMate/Services/WeatherService.swift:47-137 | both fetch methods: an empty key fails with a missing key before any request; a transfer error passes through; a reply that fails the status check fails with that error; a decoding failure passes the decoder's own error through; success iff key, transfer, status and decoding all succeed, and the result is the decoded value |
| WeatherServices.EmptyKeyMakesNoRequest | SlopeMate/Services/WeatherService.swift:48 | with an empty key the result is the same whatever the network or the decoder would produce |

## Left out

- Concurrency. The `TaskGroup` fan-out and `@MainActor` isolation are not modelled: tasks are computed in catalog order and their completion order is the `order` argument. Overlapping `loadWeather` calls, and the last-finishing run overwriting a newer one, are not modelled.
- WeatherStore.ResortWeatherStore.LoadWeather: runs from `BeginLoad` to `Publish` in one method call, so the in-flight state is promised by `BeginLoad`'s contract and not by `LoadWeather`'s own. Views changing `alertMessage` while a run is suspended are not modelled (the property is publicly settable).
- WeatherStore.ResortWeatherStore.constructor: the injected `WeatherServicing` is not stored. What it answers is each run's `answers` argument, so two runs with the same resorts and date may publish different readings.
- DateNavigation.DateManager.Move: `move(by:)` reads the clock twice, once for today (DateManager.swift:49) and once inside `maxDate` (DateManager.swift:41, used at :50). The model uses one `now` for both. If midnight passes between the two reads, the app accepts today + 8 as well, a nine-day window. The model cannot show this.
- Networking and decoding. `URLSession`, URL and query building, `JSONDecoder`, `Bundle` and `ProcessInfo` are not modelled. The exchange, the decoder's result and the three key sources are inputs.
- The `invalidURL` throws in both fetches are not modelled: they fire only if the constant endpoint strings fail to parse, and those strings are valid.
- Debug printing of error bodies is not modelled.
- Time. Instants are whole seconds; the provider's fractional `TimeInterval` values are not modelled.
- Seoul is modelled as a fixed UTC+9 for every instant. The historical offsets through 1988 are not modelled, including the daylight saving Seoul kept in 1987 and 1988.
- A `calendar.date(byAdding:)` result of nil (overflow) is not modelled, in `move(by:)` or in `maxDate`: `DateNavigation.DateManager.MaxDate` has no `?? today` fallback (DateManager.swift:42). Neither nil occurs for real dates.
- The sunrise/sunset placeholder is the run's `now`. In the app it is a separate, later clock read.
- `formattedSelectedDate` and `DateFormatter` are not modelled: presentation only.
- Identifiers. Resort UUIDs are natural numbers. The display model's own `id = UUID()` is not modelled.
- Text.Lowercased: only ASCII letters are mapped. Swift's `lowercased()` uses full Unicode case mapping, which the Hangul keywords are unaffected by either way.
- Text.Contains: compares plain character sequences. Swift compares by grapheme clusters and canonical equivalence.
- WeatherModels.IconPrefix: counts the code's first two characters as Unicode scalars, where Swift's `prefix(2)` counts grapheme clusters. The two agree on ASCII icon codes, the only kind the provider sends.
- WeatherModels.IconURL: treats every non-empty icon code as giving a URL. `URL(string:)` can also return nil for a code containing characters not allowed in a URL.
- WeatherModels.IconColorFor: temperatures are exact reals. A NaN reading, which the app would colour red, is not modelled.
- The `resorts` catalog contents (names, coordinates, URLs, hours) are constant data and are not reproduced.
- The DEBUG preview model is not modelled.
- All SwiftUI views are not modelled: presentation only.
