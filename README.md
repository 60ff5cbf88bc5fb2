# WildPass flight search — a Dafny model

WildPass searches Frontier Airlines fares across several origins and
destinations at once. It is a Flask server (`backend/`) that queries the
Amadeus flight-offers API, plus a React client (`src/`) that streams the
results route by route, caches them in `localStorage`, groups them by
destination and lets the user build a round trip one leg at a time.

This project models the deterministic logic of both halves. Each module
follows one source file:

| module | file | source |
|---|---|---|
| `GoWildBlackout` | blackout.dfy | `backend/gowild_blackout.py`: the GoWild blackout table, date lookup, flight summary, next open day, range query |
| `Calendar` | calendar.dfy | the `datetime` arithmetic and `strptime`/`strftime` with `%Y-%m-%d` that the server relies on |
| `Amadeus` | amadeus.dfy | `backend/amadeus_api.py`: the route loop, offer conversion, itinerary parsing, duration text, airline names, popular destinations, GoWild eligibility |
| `ServerApp` | server_app.dfy | `backend/app.py`: the result cache and its key, field validation, the return-date rule, the event-stream generator, the trip planner's day loop |
| `ClientCache` | client_cache.dfy | `CacheManager` in `src/services/api.js` over a `localStorage` map |
| `EventStream` | event_stream.dfy | `searchFlightsStreaming` and `searchFlights` in `src/services/api.js` |
| `AppSession` | session.dfy | the session state of `src/App.js` and the build-your-own flow |
| `FlightResults` | flight_results.dfy | `groupedFlights` and the header text of `src/components/FlightResults.js` |
| `SearchForm` | search_form.dfy | `handleSubmit` of `src/components/SearchForm.js` |
| `DestinationCard` | destination_card.dfy | the summary of `src/components/DestinationCard.js` |
| `Flights`, `Common`, `TextOrder` | flights.dfy, common.dfy, text_order.dfy | the flight record and search parameters; string split and join, decimal digits; Python's `sorted` on strings |

Parts of the program that are not logic become parameters:

- **Clock:** `now` and the chunk times. It counts milliseconds on the
  client and microseconds on the server.
- **Storage:** `localStorage` is a `map<string, Stored>`.
- **Amadeus SDK:** the call is a function `query` from a route query to
  offers or a `ResponseError`.
- **Trip matching:** `find_optimal_trips` is a function `plan`.
- **Parsing:** `JSON.parse` of an event line is a function `decode`, and
  `float` on a string is `parseFloat`.
- **Development mode:** the random development data is an input (`mock`).
- **Response body:** it arrives as a sequence of already-decoded chunks.

Code that changes state step by step is written as methods with loops,
each proved against a function:

- `ClientCache.CacheManager` and `AppSession.Session` are classes.
- `ServerApp.ServerCache` holds the server's cache dictionary.
- Each destination group is sorted in place on an `array`.

Behaviour of the code worth knowing:

- **`onComplete` is not unique.** The stream loop does not stop at the
  completion event. Every complete `data:` line carrying `complete` stores
  the flights so far and calls `onComplete` again. A body with no such line
  ends with neither `onComplete` nor `onError`. A read that fails after a
  completion reports `onError` after the cache has been written.
- **Cache hits may skip `onFlights`.** On a cache hit, `onFlights` is
  called only when the cached data has a `flights` list.
- **Transitions are not guarded.** The build-your-own transitions run in
  any step. After a completed trip the cards still offer the return
  selection.
- **Stale planner fields.** A build-your-own submission whose hidden trip
  type is still `trip-planner` sends the trip planner fields.

## Model

| member | source | states |
|---|---|---|
| Calendar.DaysInMonth | backend/gowild_blackout.py:114 | a month has 28 to 31 days |
| Calendar.NextDay | backend/gowild_blackout.py:198 | adding one day keeps a valid date |
| Calendar.PrevDay | backend/app.py:379-380 | subtracting one day keeps a valid date |
| Calendar.AddDays | backend/app.py:373 | adding any number of days keeps a valid date, and adding a non-negative number never moves to an earlier year |
| Calendar.NextDayIsSuccessor | backend/gowild_blackout.py:198 | the next day is later than `d`, and no valid date lies strictly between them |
| Calendar.PrevDayIsPredecessor | backend/app.py:379-380 | the previous day is earlier than `d`, nothing lies between them, and the two steps undo each other |
| Calendar.AddDaysForward | backend/gowild_blackout.py:197-198 | moving forward k >= 1 days lands strictly later |
| Calendar.Parse | backend/gowild_blackout.py:113-116 | `strptime('%Y-%m-%d')` either fails or gives a valid date with a year from 1 to 9999 |
| Calendar.ParseFormat | backend/gowild_blackout.py:199-200 | parsing a rendered date gives the date back, for every valid date with years 1 to 9999 |
| TextOrder.Sort | backend/app.py:45 | `sorted` returns a permutation of its input |
| TextOrder.SortSorted | backend/app.py:45 | `sorted` returns a list in ascending string order |
| TextOrder.SortForgetsOrder | backend/app.py:45 | two lists with the same elements sort to the same list |
| Common.Split | src/services/api.js:151 | `split` on one character returns at least one piece, and at least two when the separator occurs |
| Common.SplitJoin | src/services/api.js:151-152 | joining the pieces of a split with the separator gives the text back, and no piece contains the separator |
| GoWildBlackout.TableShape | backend/gowild_blackout.py:22-81 | the table has 10 periods for 2025 and 9 for 2026, 19 in all, each with start no later than end |
| GoWildBlackout.GetAllBlackoutPeriods | backend/gowild_blackout.py:84-98 | the append loop returns the 2025 periods followed by the 2026 periods |
| GoWildBlackout.FirstMatchIsEarliest | backend/gowild_blackout.py:118-122 | a reason is found iff some period covers the date (both ends inclusive), and it is the description of the first covering period in table order |
| GoWildBlackout.IsBlackoutDate | backend/gowild_blackout.py:101-122 | the loop returns the table lookup of the parsed date, and `(False, None)` for no match; the flag is false exactly when there is no reason |
| GoWildBlackout.UnparseableIsNotBlackout | backend/gowild_blackout.py:113-116 | a date that does not parse gives `(False, None)` |
| GoWildBlackout.IsFlightAffectedByBlackout | backend/gowild_blackout.py:125-178 | the departure fields are the departure lookup and the return fields the return lookup when a return date is given (else false and None); `has_blackout` is their disjunction; the message is one of the four texts, or None when neither leg is blacked out |
| GoWildBlackout.NextAvailableFrom | backend/gowild_blackout.py:197-204 | a date found is valid, not in an earlier year, and no later than year 9999 |
| GoWildBlackout.GetNextAvailableDate | backend/gowild_blackout.py:181-204 | the 90-step loop returns the search's result, rendered; None for an unparseable start or when nothing is found; `OverflowError` when a step passes 9999-12-31 |
| GoWildBlackout.NextAvailableFound | backend/gowild_blackout.py:197-202 | a date found is start + k days for some 1 <= k <= 90; that day is not blacked out, every day before it is, and none of them lies past 9999-12-31 |
| GoWildBlackout.NextAvailableExhausted | backend/gowild_blackout.py:197-204 | when nothing is found, all 90 days after the start are blacked out and none lies past 9999-12-31 |
| GoWildBlackout.NextAvailableOverflows | backend/gowild_blackout.py:196-199 | when the search raises `OverflowError`, its k-th step (k <= 90) passes 9999-12-31 and every day before it is blacked out; with the two rows above, it raises only then |
| GoWildBlackout.NextAvailableIsLater | backend/gowild_blackout.py:196-202 | the date found is strictly after the start and at most 90 days later |
| GoWildBlackout.NextAvailableOfUnparseable | backend/gowild_blackout.py:191-194 | an unparseable start returns None |
| GoWildBlackout.OverlappingMembers | backend/gowild_blackout.py:226-233 | a period is reported iff it is in the table and starts no later than the range end and ends no earlier than the range start |
| GoWildBlackout.OverlappingSubset | backend/gowild_blackout.py:226-233 | the reported periods are table entries and no more numerous than the table |
| GoWildBlackout.GetBlackoutPeriodsInRange | backend/gowild_blackout.py:207-235 | `[]` when either bound does not parse; otherwise the overlapping periods rendered as start, end and description, in table order |
| GoWildBlackoutExamples.BlackedOutByTable | backend/gowild_blackout.py:199-200 | the loop's test on a rendered date is the table lookup of that date |
| GoWildBlackoutExamples.RenderedSamples | backend/gowild_blackout.py:199 | 25 December 2025 and 5 January 2026 render as `2025-12-25` and `2026-01-05` |
| GoWildBlackoutExamples.SearchFromRendered | backend/gowild_blackout.py:191-204 | searching from a rendered date is the search from that date, rendered |
| GoWildBlackoutExamples.FifthOfJanuaryIsOpen | backend/gowild_blackout.py:51-56 | no period covers 5 January 2026 |
| GoWildBlackoutExamples.ChristmasBlackedOut | backend/gowild_blackout.py:51 | every day from 19 December 2025 to 4 January 2026 is blacked out |
| GoWildBlackoutExamples.ChristmasRun | backend/gowild_blackout.py:197-202 | a search from 25 December 2025 that finds 26 December to 4 January blocked and 5 January free returns 5 January |
| GoWildBlackoutExamples.ChristmasSearch | backend/gowild_blackout.py:197-202 | the search from 25 December 2025 finds 5 January 2026 |
| GoWildBlackoutExamples.NextAvailableAfterChristmas | backend/test_blackout_dates.py:50-53 | the next available date after `2025-12-25` is `2026-01-05` |
| GoWildBlackoutExamples.LastDayOverflows | backend/gowild_blackout.py:196-198 | the search from `9999-12-31` raises `OverflowError` on its first step |
| ClientCache.GetCacheKey | src/services/api.js:11-15 | every key starts with the `wildpass_` prefix |
| ClientCache.KeyShape | src/services/api.js:14 | after the prefix the key is the origins joined by commas, `_`, the destinations joined by commas, `_`, then trip type, departure and return (`null` when absent) |
| ClientCache.KeyDeterminesLists | src/services/api.js:11-15 | two searches with the same key and other fields have the same origin list and the same destination list, order included |
| ClientCache.WriteThenRead | src/services/api.js:17-40 | a read less than an hour after a write returns the data written and leaves the storage unchanged |
| ClientCache.WriteThenReadLate | src/services/api.js:29-44 | a read an hour or more after the write returns nothing and removes exactly that key |
| ClientCache.WriteIsolated | src/services/api.js:17-27 | writing one key does not change what another key reads |
| ClientCache.StatsBound | src/services/api.js:64-93 | valid + expired never exceeds total, with equality when the scan cannot throw and no cache key holds an empty value |
| ClientCache.StatsAfterClear | src/services/api.js:51-93 | after a clear the statistics are all zero |
| ClientCache.CacheManager.constructor | src/services/api.js:10 | the manager wraps the given storage |
| ClientCache.CacheManager.SetCache | src/services/api.js:17-27 | the key now holds the data with the current time, and nothing else changes |
| ClientCache.CacheManager.GetCache | src/services/api.js:29-49 | a live entry's data with the storage unchanged; for an expired entry, nothing, with exactly that key removed; nothing, with no change, for a missing, empty or unparsable value |
| ClientCache.CacheManager.ClearCache | src/services/api.js:51-62 | exactly the prefixed keys are removed; every other key keeps its value |
| ClientCache.CacheManager.GetCacheStats | src/services/api.js:64-93 | the loop's counts are the statistics of the storage (all zero when the scan throws), and the storage is not changed |
| EventStream.FeedReassembles | src/services/api.js:148-152 | after a chunk, the handled lines each followed by `\n`, then the new buffer, are the old buffer followed by the chunk; the new buffer holds no `\n` |
| EventStream.LinesAndRest | src/services/api.js:151-152 | a text is its complete lines, each ended by `\n`, followed by a last piece without `\n` |
| EventStream.FeedAllBuffer | src/services/api.js:141-152 | after any chunks the buffer is the text after the last `\n` |
| EventStream.ChunkingIrrelevant | src/services/api.js:141-186 | however the body is cut into chunks, the callbacks, flights and cache writes are those of handling the complete lines of the whole text; an unfinished last line is never handled |
| EventStream.HandleLinesTimeless | src/services/api.js:154-180 | the callbacks and flights do not depend on the clock, and what the cache stores does not either |
| EventStream.CompletionsCounted | src/services/api.js:160-169 | `onComplete` fires once per completion line |
| EventStream.NoErrorsFromLines | src/services/api.js:154-180 | line handling never calls `onError`, and each `onComplete` it makes has `fromCache: false` |
| EventStream.FlightsAreBatches | src/services/api.js:170-175 | `allFlights` is exactly the batches passed to `onFlights`, in order |
| EventStream.WrittenIsPrefix | src/services/api.js:160-166 | the cache is written iff some completion line came, and what it stores is a prefix of the final flights |
| EventStream.StreamWithoutCompletion | src/services/api.js:141-145 | a body without a completion line ends with neither `onComplete` nor `onError` from its lines, and writes nothing to the cache |
| EventStream.HandleChunkLines | src/services/api.js:154-180 | the `forEach` over one read's lines handles them in order and writes the flights so far under the key at each completion line |
| EventStream.ReadBody | src/services/api.js:141-186 | the read loop's callbacks and cache writes are those of the chunks fed in order |
| EventStream.SearchFlightsStreaming | src/services/api.js:99-195 | on a cache hit, the cached callbacks and no change to storage; otherwise `onError` for a rejected fetch or a non-OK status, or the body's callbacks followed by `onError` if a read fails, with the cache written at each completion |
| EventStream.RepeatAfterCompletion | src/services/api.js:107-119 | repeating a search less than an hour after a completion is answered from the cache: the flights stored at the last completion, then `onComplete` with their number and `fromCache: true` |
| EventStream.SearchFlights | src/services/api.js:197-239 | a live cache entry is returned as cached; otherwise the server's data is stored, stamped with the clock reading taken after the body was parsed, and returned as fresh, and a failure stores nothing and is passed on with the status text |
| ServerApp.KeyIgnoresOrder | backend/app.py:43-45 | permuting either airport list does not change the server's key |
| ServerApp.KeysDisagreeOnOrder | backend/app.py:43-45 | two orders of the same origins share one server key but get two different browser keys |
| ServerApp.StoredThenServed | backend/app.py:47-52 | an entry stored at t is served for exactly the hour after t |
| ServerApp.ValidAndExpired | backend/app.py:443-451 | valid and expired entries together are exactly the entries |
| ServerApp.ReturnDateRule | backend/app.py:155-163 | a one-way search queries no return date, a day trip returns on the departure date, and any other trip type sends the return date only when it is non-empty |
| ServerApp.ServerCache.constructor | backend/app.py:40 | the cache starts empty |
| ServerApp.ServerCache.Search | backend/app.py:107-198 | missing fields give 400 with no change; a live entry is served as cached; otherwise the development data or the Amadeus result is stored under the key, stamped with the clock read again after the search returned, and returned fresh; with neither source, 503; a raised search gives 500 and stores nothing |
| ServerApp.ServerCache.Clear | backend/app.py:436-441 | the cache is empty |
| ServerApp.ServerCache.Stats | backend/app.py:443-451 | total is the number of entries, valid counts the live ones, expired the rest |
| ServerApp.RouteEvents | backend/app.py:227-233 | one event per reported route |
| ServerApp.RouteEventsCount | backend/app.py:227-233 | the route events' counts add up to the number of flights they carry |
| ServerApp.StreamBatches | backend/app.py:302-304 | the loop appends one route event per batch and the batches' flights in order |
| ServerApp.SearchStream | backend/app.py:200-324 | the response is the generator's events: 400 for missing fields; development batches, the Amadeus batches, or nothing, followed by the completion event; a raised search cuts the stream off |
| ServerApp.StreamEndsWithCompletion | backend/app.py:306-311 | a stream that is not cut off ends with exactly one completion event, whose total is the number of flights in the route events before it |
| ServerApp.PlanInputOf | backend/app.py:363-364 | a planner input that is read has a valid start date with a year from 1 to 9999 |
| ServerApp.ReturnWindow | backend/app.py:378-384 | five valid return dates per departure day |
| ServerApp.WindowConsecutive | backend/app.py:378-384 | the five return dates are consecutive days centred on the target |
| ServerApp.WindowText | backend/app.py:378-384 | five rendered return dates |
| ServerApp.DayBatchFailed | backend/app.py:389-400 | once one search of a day raises, the day raises |
| ServerApp.AccumulatedGrows | backend/app.py:402 | the gathered flights only grow: each day's list extends the previous day's |
| ServerApp.SearchDay | backend/app.py:372-386 | one day of the loop is the day's search: no search without the Amadeus client, and a failure for a date `datetime` cannot hold |
| ServerApp.SearchWindow | backend/app.py:389-400 | the inner loop gathers each return date's flights in order, and fails when one search raises |
| ServerApp.SearchDays | backend/app.py:372-415 | at most 30 days are searched; every day before the last leaves `find_optimal_trips` empty; the loop stops at the first day with trips, after 30 empty days, or at a day that raises |
| ServerApp.Top | backend/app.py:421 | a prefix of at most 20 trips, the whole list when it is short |
| ServerApp.TripPlanner | backend/app.py:337-434 | 400 iff a field is missing; 500 when the date or length does not parse or a search raises; otherwise the first day k with trips gives the top 20 of them, `total_options`, `days_searched` = k + 1 and `earliest_departure` = start + k days, and 30 empty days give `days_searched` 31 with no flights and no date |
| Amadeus.PyIntRoundTrip | backend/amadeus_api.py:209 | `int` reads back any rendered whole number |
| Amadeus.RemoveChar | backend/amadeus_api.py:213 | removing a one-character pattern leaves none of that character |
| Amadeus.RemoveTrailing | backend/amadeus_api.py:213 | removing a trailing `M` removes exactly it when no other `M` occurs |
| Amadeus.StripDesignator | backend/amadeus_api.py:202 | removing `PT` drops exactly the leading designator when no other `P` follows |
| Amadeus.HoursField | backend/amadeus_api.py:207-210 | the digits before `H` are the hours, and the text after `H` is left for the minutes |
| Amadeus.MinutesField | backend/amadeus_api.py:212-213 | the digits before `M` are the minutes |
| Amadeus.DurationHoursAndMinutes | backend/amadeus_api.py:199-220 | `PT{h}H{m}M` renders as `{h}h {m}m`, `{h}h` when m is 0, `{m}m` when h is 0 |
| Amadeus.DurationHoursOnly | backend/amadeus_api.py:199-220 | `PT{h}H` renders as `{h}h`, or `0m` when h is 0 |
| Amadeus.DurationMinutesOnly | backend/amadeus_api.py:199-220 | `PT{m}M` renders as `{m}m` |
| Amadeus.DurationFromParts | backend/amadeus_api.py:199-220 | once the hours and minutes are read, the text is their rendering |
| Amadeus.DurationWithDaysRaises | backend/amadeus_api.py:202-209 | a duration with a day part keeps its designator, so `int` raises |
| Amadeus.AirlineName | backend/amadeus_api.py:222-234 | a listed code gives its name; any other code comes back unchanged, and only then |
| Amadeus.Without | backend/amadeus_api.py:321 | the comprehension keeps exactly the elements that are not origins |
| Amadeus.WithoutInOrder | backend/amadeus_api.py:321 | the kept elements are in their original order |
| Amadeus.PopularDestinations | backend/amadeus_api.py:312-324 | at most ten destinations, exactly the popular airports that are not origins |
| Amadeus.PopularInOrder | backend/amadeus_api.py:312-324 | the popular destinations keep the table's order |
| Amadeus.IsGoWildEligible | backend/amadeus_api.py:236-310 | the early-return loop decides the eligibility rule: false with no itineraries, a non-F9 first carrier, or no pricings or fare details; true for an ECONOMY fare whose class or fare basis starts with V, Q, X, N, O or S; otherwise price < 100; false on any lookup that raises |
| Amadeus.ParseItinerary | backend/amadeus_api.py:159-192 | a parsed leg has the route's ends, stops = segments - 1, the flight number as carrier code plus number, the airline name of the first carrier and the rendered duration; it raises `ValueError` exactly when every field is present but the duration does not convert |
| Amadeus.ConvertOffer | backend/amadeus_api.py:88-155 | a converted flight has a price and an itinerary; it carries the route, the offer's total and the eligibility rule; it is a round trip iff the offer has more than one itinerary, and then it carries a parsed return leg flying back and a total price equal to the price |
| Amadeus.ConvertAll | backend/amadeus_api.py:84-157 | offers that raise `KeyError` or `IndexError` are skipped and a `ValueError` escapes; the flights are at most the offers and all on the route |
| Amadeus.ConvertOffers | backend/amadeus_api.py:84-157 | the conversion loop computes `ConvertAll` |
| Amadeus.ConvertAllStops | backend/amadeus_api.py:88-155 | a `ValueError` ends the conversion whatever offers follow |
| Amadeus.RunRoutesStops | backend/amadeus_api.py:46-82 | a raised route ends the search whatever routes follow |
| Amadeus.SearchRoute | backend/amadeus_api.py:51-80 | one route: a `ResponseError` adds nothing, otherwise the converted flights and, when there are some, the callback's batch |
| Amadeus.SearchFrom | backend/amadeus_api.py:47-80 | the inner loop searches the origin's routes in destination order |
| Amadeus.SearchFlights | backend/amadeus_api.py:23-82 | the nested loop searches every origin-destination route whose ends differ, in order, with `['ANY']` replaced by the popular destinations |
| Amadeus.RouteMembership | backend/amadeus_api.py:46-49 | a route is searched iff its origin is an origin, its destination a destination, and the two differ |
| Amadeus.RowMembership | backend/amadeus_api.py:47-49 | one origin's routes are exactly its destinations other than itself |
| Amadeus.BatchesCoverFlights | backend/amadeus_api.py:70-75 | the result lists exactly the flights the callback was given, in order, and the callback never gets an empty list |
| Amadeus.QueriedRoutes | backend/amadeus_api.py:41-49 | no query has equal ends, and an `['ANY']` search flies only to popular airports that are not origins |
| AppSession.ApplyTrace | src/App.js:121-140 | each batch is appended in arrival order and counted as one route; loading ends exactly when `onComplete` or `onError` has come; an error keeps the flights; the selection is untouched |
| AppSession.ReturnSearchReverses | src/App.js:28-39 | the derived search is one-way, from the flight's destination to its origin, with no return date and a mode other than build-your-own; it departs on the desired return date, else the arrival date in either spelling |
| AppSession.CompletedTrip | src/App.js:50-55 | the outbound flight, marked round trip, with the chosen return flight and the sum of the two fares, and every other field unchanged |
| AppSession.Session.constructor | src/App.js:8-20 | the initial session state |
| AppSession.Session.StartSearch | src/App.js:69-118 | the previous results, error, flags and counters are cleared; the selection is reset only for a build-your-own search; a planner search is sent to the planner, any other is streamed with total routes = origins x destinations |
| AppSession.Session.OnFlightsArrived | src/App.js:124-127 | the batch is appended and one more route counted |
| AppSession.Session.OnCompleted | src/App.js:129-133 | loading ends and the cache flag is taken from the result |
| AppSession.Session.OnFailed | src/App.js:135-139 | the error message (or the fallback text) is set and loading ends, keeping the flights |
| AppSession.Session.Deliver | src/App.js:121-140 | the callbacks of a stream applied in order |
| AppSession.Session.PlanArrived | src/App.js:89-98 | the planner's flights (or none) and its summary are shown, and loading ends |
| AppSession.Session.PlanRejected | src/App.js:106-110 | the error message (or the fallback text) is set and loading ends |
| AppSession.Session.SelectOutbound | src/App.js:22-46 | the flight is kept, the step becomes return, the return flights are cleared, and the reversed one-way search starts |
| AppSession.Session.SelectReturn | src/App.js:48-60 | with an outbound selection, the flights become the one completed trip and the step becomes complete; without one, nothing changes |
| AppSession.Session.Reset | src/App.js:62-67 | the selection, return flights and flights are cleared and the step is outbound |
| AppSession.OutboundSurvivesReturnSearch | src/App.js:22-45 | however the return search's callbacks go, the session stays at the return step with the outbound flight kept, and its flights are exactly the return batches |
| FlightResults.Nonstop | src/components/FlightResults.js:25-27 | a flight is kept iff it is in the list and has no stops |
| FlightResults.GoWildOnly | src/components/FlightResults.js:28-30 | a flight is kept iff it is in the list and GoWild eligible |
| FlightResults.FiltersCompose | src/components/FlightResults.js:24-30 | the two filters in sequence keep, in order, exactly the flights meeting both chosen conditions |
| FlightResults.ToDest | src/components/FlightResults.js:33-40 | a group holds only flights to its key, drawn from the list |
| FlightResults.Destinations | src/components/FlightResults.js:33-40 | the group keys have no repeats |
| FlightResults.DestinationsListed | src/components/FlightResults.js:33-40 | a destination is a key iff some flight goes there |
| FlightResults.GroupLists | src/components/FlightResults.js:33-40 | one list per key |
| FlightResults.GroupsPartition | src/components/FlightResults.js:33-40 | the groups together hold every flight exactly once |
| FlightResults.PushOntoGroup | src/components/FlightResults.js:39 | a flight to a known destination joins its list and adds no key |
| FlightResults.OpenGroup | src/components/FlightResults.js:36-39 | a flight to a new destination opens a list at the end of the keys |
| FlightResults.GroupByDestination | src/components/FlightResults.js:33-40 | the loop's keys are the destinations in order of first appearance, and each key's list is exactly the flights to it, in order |
| FlightResults.NotAfterTotal | src/components/FlightResults.js:44-77 | any two flights are comparable under the chosen order |
| FlightResults.NotAfterTransitive | src/components/FlightResults.js:44-77 | the chosen order is transitive |
| FlightResults.NonstopOrder | src/components/FlightResults.js:46-49 | under the nonstop order every nonstop flight precedes every flight with stops, and each run is in price order |
| FlightResults.InsertAt | src/components/FlightResults.js:44 | one insertion step extends the sorted prefix by one element and permutes the array |
| FlightResults.SortGroup | src/components/FlightResults.js:43-79 | each group is sorted by the chosen order and is a permutation of itself |
| FlightResults.MinPriceIsMinimum | src/components/FlightResults.js:83-84 | the minimum is no dearer than any flight and is some flight's fare |
| FlightResults.MinPriceOrderFree | src/components/FlightResults.js:82-86 | the minimum does not depend on the order of the flights |
| FlightResults.InsertKey | src/components/FlightResults.js:82-86 | inserting a key adds exactly that key |
| FlightResults.SortKeys | src/components/FlightResults.js:82-86 | the key sort is a permutation of the keys |
| FlightResults.InsertKeyOrdered | src/components/FlightResults.js:82-86 | inserting a key into keys ordered by cheapest fare keeps them ordered |
| FlightResults.SortKeysOrdered | src/components/FlightResults.js:82-86 | the sorted keys are in order of their groups' cheapest fare |
| FlightResults.SortEachGroup | src/components/FlightResults.js:43-79 | every group is sorted in place by the chosen order, a permutation of its flights, and no key is added or lost |
| FlightResults.GroupsNonEmpty | src/components/FlightResults.js:88-92 | every group, sorted or not, is non-empty |
| FlightResults.Cards | src/components/FlightResults.js:88-92 | one card per key, in key order, holding that key's sorted list |
| FlightResults.CardsShown | src/components/FlightResults.js:88-92 | each card holds exactly its destination's shown flights, sorted by the chosen order, with the origin of its first flight, and the cards are in order of cheapest fare |
| FlightResults.GroupedFlights | src/components/FlightResults.js:22-93 | one card per destination of the shown flights; each holds exactly the shown flights to it, sorted by the chosen order, with the origin of its first flight; cards are in order of cheapest fare |
| FlightResults.TripTypeLabel | src/components/FlightResults.js:99-107 | the four known trip types get their label, and any other comes back unchanged, and only then |
| FlightResults.DestinationText | src/components/FlightResults.js:109-111 | the header reads `Any Airport` exactly when `ANY` is among the destinations or the one destination is named `Any Airport` |
| FlightResults.DestinationTextReadsBack | src/components/FlightResults.js:109-111 | when no destination is `ANY` and each is a code as the search form submits it, reading the header back as a comma-separated code list gives the destinations, in order |
| FlightResults.HandlerFollowsStep | src/components/FlightResults.js:246 | cards offer outbound selection iff the step is outbound, and the return selection at both the return and the complete step |
| SearchForm.TrimStart | src/components/SearchForm.js:21 | leading white space removed: a suffix of the input whose first character is not white space, after only white space |
| SearchForm.TrimEnd | src/components/SearchForm.js:21 | trailing white space removed: a prefix whose last character is not white space, before only white space |
| SearchForm.TrimmedPiece | src/components/SearchForm.js:21 | `trim` keeps a contiguous slice of the input and drops only white space around it |
| SearchForm.TrimmedEnds | src/components/SearchForm.js:21 | a trimmed string has no white space at either end and is no longer than the input, using only its characters; a string without such white space is unchanged |
| SearchForm.TrimIdempotent | src/components/SearchForm.js:21 | trimming twice is trimming once |
| SearchForm.Tidy | src/components/SearchForm.js:21 | `map(trim).filter` yields only non-empty, trimmed, comma-free codes, no more than the pieces |
| SearchForm.Codes | src/components/SearchForm.js:21 | every code read from a comma list is non-empty, trimmed and comma-free |
| SearchForm.TidyCodes | src/components/SearchForm.js:21 | pieces that are already codes pass through unchanged |
| SearchForm.CodesRoundTrip | src/components/SearchForm.js:21 | a list of codes joined by commas reads back as the same list, in order |
| SearchForm.CodesIdempotent | src/components/SearchForm.js:21 | reading back the submitted list changes nothing |
| SearchForm.CodesOfListing | src/components/SearchForm.js:21 | a list of codes joined by `, ` reads back as the same list, in order: the space after each comma is trimmed away |
| SearchForm.Submit | src/components/SearchForm.js:18-52 | mode and parsed origins; `['ANY']` or the parsed destinations; trip type one-way for build-your-own; return date null for one-way or build-your-own; `desiredReturnDate` iff build-your-own with a return date; the planner keys iff the trip type is the planner; the maximum-duration pair iff also non-empty |
| SearchForm.SubmittedAirports | src/components/SearchForm.js:21-24 | every submitted airport is a clean code or the `ANY` marker |
| SearchForm.BuildYourOwnIsOneWay | src/components/SearchForm.js:30-32 | a build-your-own search is sent one-way with no return date, yet carries the planner keys when the hidden trip type is the planner |
| SearchForm.PlannerReachesServer | src/components/SearchForm.js:41-49 | a planner form with a date, a trip length and airports on both sides passes the server's field check |
| SearchForm.InitialSubmission | src/components/SearchForm.js:5-16 | the initial form asks for a round trip with an empty return date and no optional keys |
| DestinationCard.ReduceFirstMinimum | src/components/DestinationCard.js:9-11 | over any non-empty prefix, the reduce returns a flight of minimum fare with every earlier flight strictly dearer |
| DestinationCard.CheapestIsFirstMinimum | src/components/DestinationCard.js:9-11 | the cheapest flight is in the list, no flight is cheaper, and on ties the earliest wins |
| DestinationCard.CheapestIsGroupPrice | src/components/DestinationCard.js:9-11 | the card's fare is the fare that orders the cards |
| DestinationCard.NonstopCountBounds | src/components/DestinationCard.js:14 | the nonstop count is at most the list's length, equals it iff every flight is nonstop, and is 0 iff none is |
| DestinationCard.TripPlannerCard | src/components/DestinationCard.js:17 | a list of planner results makes a planner card, and a list without durations does not |

## Left out

- Network and transport are not modelled: `fetch`, Flask routing, `jsonify`, CORS, environment configuration, `healthCheck`, `getDestinations`, `clearServerCache`, and the `/api/health` and `/api/destinations` endpoints. `planTrip` enters only as the result or error that `PlanArrived` and `PlanRejected` receive.
- `TextDecoder` and the asynchronous ordering of promises: chunks arrive already decoded, and callbacks are later method calls.
- The Amadeus SDK client, and any reply other than offers or a `ResponseError`: the SDK is a foreign library, so it is the parameter `query`.
- `find_optimal_trips` is not part of this model; it is the parameter `plan`.
- `generate_mock_flights`, the development-mode stream batches and `time.sleep` are random or timing-only. The data they produce is an input.
- `Amadeus.ConvertOffer`: a missing `price.currency`, or a missing `departure.at` or `arrival.at` in a segment, raises `KeyError` in the code, so `ConvertAll` skips that offer; the model has no such fields to be missing and converts it. The price is the offer's total as read. The EUR-to-USD factor, `round(price, 2)`, `currency`, `seats_remaining` and `blackout_dates` are not modelled, because they are floating-point formatting or fields no modelled operation reads.
- `Amadeus.ParseItinerary`: departure and arrival clock times and `fromisoformat` are not modelled; only the arrival calendar date is kept.
- `Amadeus.Upper` covers ASCII letters only; Python's Unicode case mapping is not modelled.
- `Amadeus.PyIntRoundTrip`: `int` is modelled on an optional sign and ASCII digits. Underscores, surrounding white space and non-ASCII digits are not.
- `Calendar.Parse`: only ASCII digits are read.
- `ServerApp.PlanInputOf`: `float(trip_length)` is the parameter `parseFloat`, and the target day is start + floor(hours / 24). Floating-point rounding of the hours is not modelled.
- `ServerApp.ServerCache.Search`, `ServerApp.TripPlanner`: a 500 reply carries the kind of exception, not its message text.
- `ServerApp.SearchStream`: a cut-off stream is modelled as no events. A generator that raises after yielding is not separated from one that raises before.
- The server's cache entries store the timestamp as a number rather than an ISO string. `datetime.now()` is naive local time, and daylight-saving jumps are not modelled.
- `FlightResults.SortGroup`: only the `price` and `nonstop` orders are modelled; any other `sortBy` value uses the price order. The `earliest` and `longest-trip` comparators parse date-time strings with `Date`, which is not modelled.
- `FlightResults.SortGroup`: the relative order of flights that compare equal is not stated. `Array.prototype.sort` is stable.
- `FlightResults.GroupedFlights`: states the card order only up to cards of equal cheapest fare. It states the cards' destinations as a multiset of the group keys, not the stable order the key sort keeps among ties.
- `FlightResults.Destinations`: `Object.keys` lists integer-like keys first in numeric order. The model keeps insertion order, which is the order for airport codes.
- `ClientCache.CacheManager.SetCache`: a `setItem` that throws (quota exceeded) is not modelled.
- `EventStream.SearchFlightsStreaming`: `onComplete` and `onError` are always supplied; the checks for a missing callback are not modelled.
- `EventStream.SearchFlightsStreaming`: JSON `null` and an absent key are both `None`.
- `DestinationCard.TripPlannerCard`: `trip_duration_display` as JSON `null` and as an absent key are not distinguished.
- `AppSession.Session.SelectOutbound`: requires a current search, because the results that offer a flight are shown only when there is one (src/App.js:169).
- `AppSession.Session.PlanRejected`: the error is its message text; how `err.message` is read from an exception is not modelled.
- `AppSession.CompletedTrip`: the fares are added as numbers. The `|| 0` fallback for a missing price is not modelled, because every flight record carries a price.
- The footer's clear-cache button (src/App.js:190-201) is not modelled; it is `ClearCache` plus two state resets, done through the UI.
- React rendering, CSS choices and `src/components/FlightCard.js` are presentation only.
