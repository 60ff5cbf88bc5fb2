/** The request logic of the Flask server (`backend/app.py`): the
    in-memory result cache and its key, required-field validation, the
    trip-type rule for the return date, the event-stream generator and the
    trip planner's day-by-day search. The flight search itself is
    `Amadeus.SearchFlights` over an abstract `query`; the clock, the
    random mock data and `find_optimal_trips` are parameters. */
module ServerApp {
  import opened Common
  import opened Calendar
  import opened Flights
  import opened TextOrder
  import ClientCache
  import Amadeus

  /** `AMADEUS_ENABLED` and `DEV_MODE`, fixed when the server starts. */
  datatype Config = Config(amadeusEnabled: bool, devMode: bool)

  /** `search_flights`, `search_flights_stream`: the three fields must be
      present and non-empty. */
  predicate SearchFieldsPresent(data: SearchParams)
  {
    |data.origins| > 0 && |data.destinations| > 0 && Truthy(data.departureDate)
  }

  /** `trip_planner` needs `tripLength` as well. */
  predicate PlannerFieldsPresent(data: SearchParams)
  {
    SearchFieldsPresent(data) && Truthy(data.tripLength)
  }

  // ---------------------------------------------------------------------
  // Cache key
  // ---------------------------------------------------------------------

  /** `str(x)` of an optional string: `None` prints as "None". */
  function PyStr(s: Option<string>): string
  {
    match s
    case None => "None"
    case Some(v) => v
  }

  /** `get_cache_key`: both lists sorted, then joined. */
  function ServerKey(origins: seq<string>, destinations: seq<string>, departureDate: string,
                     returnDate: Option<string>, tripType: string): string
  {
    Join(Sort(origins), ",") + "_" + Join(Sort(destinations), ",") + "_" + departureDate + "_"
      + PyStr(returnDate) + "_" + tripType
  }

  /** The key of a validated request. */
  function RequestKey(data: SearchParams): string
    requires SearchFieldsPresent(data)
  {
    ServerKey(data.origins, data.destinations, data.departureDate.value, data.returnDate, data.tripType)
  }

  /** Reordering either airport list does not change the server's key. */
  lemma KeyIgnoresOrder(p: seq<string>, q: seq<string>, d: seq<string>, e: seq<string>,
                        dep: string, ret: Option<string>, tripType: string)
    requires multiset(p) == multiset(q) && multiset(d) == multiset(e)
    ensures ServerKey(p, d, dep, ret, tripType) == ServerKey(q, e, dep, ret, tripType)
  {
    SortForgetsOrder(p, q);
    SortForgetsOrder(d, e);
  }

  /** The browser's key keeps the order the lists were typed in, so two
      searches for the same airports in a different order share one server
      cache entry but occupy two browser cache entries. */
  lemma KeysDisagreeOnOrder(p: seq<string>, q: seq<string>, d: seq<string>,
                            dep: string, ret: Option<string>, tripType: string)
    requires ClientCache.Codes(p) && ClientCache.Codes(q) && ClientCache.Codes(d)
    requires multiset(p) == multiset(q) && p != q
    ensures ServerKey(p, d, dep, ret, tripType) == ServerKey(q, d, dep, ret, tripType)
    ensures ClientCache.GetCacheKey(p, d, tripType, Some(dep), ret)
            != ClientCache.GetCacheKey(q, d, tripType, Some(dep), ret)
  {
    KeyIgnoresOrder(p, q, d, d, dep, ret, tripType);
    if ClientCache.GetCacheKey(p, d, tripType, Some(dep), ret) == ClientCache.GetCacheKey(q, d, tripType, Some(dep), ret) {
      ClientCache.KeyDeterminesLists(p, d, q, d, tripType, Some(dep), ret);
    }
  }

  // ---------------------------------------------------------------------
  // Cache entries
  // ---------------------------------------------------------------------

  /** `CACHE_DURATION`, in microseconds. */
  const Hour: int := 3600 * 1000000

  /** A cache value: the flights and when they were stored (the clock, in
      microseconds). */
  datatype ServerEntry = ServerEntry(flights: seq<Flight>, timestamp: int)

  /** `is_cache_valid`: there is an entry and it is less than an hour old. */
  predicate IsCacheValid(entry: Option<ServerEntry>, now: int)
  {
    entry.Some? && now - entry.value.timestamp < Hour
  }

  /** What a lookup of `key` at `now` serves: the stored flights of a valid
      entry, nothing otherwise. */
  function Lookup(entries: map<string, ServerEntry>, key: string, now: int): Option<seq<Flight>>
  {
    if key in entries && IsCacheValid(Some(entries[key]), now) then Some(entries[key].flights) else None
  }

  /** Flights stored at `t` are served for exactly the next hour. */
  lemma StoredThenServed(entries: map<string, ServerEntry>, key: string, flights: seq<Flight>, t: int, later: int)
    requires t <= later
    ensures Lookup(entries[key := ServerEntry(flights, t)], key, later)
            == if later < t + Hour then Some(flights) else None
  {
  }

  function ValidKeys(entries: map<string, ServerEntry>, now: int): set<string>
  {
    set k | k in entries && IsCacheValid(Some(entries[k]), now)
  }

  function ExpiredKeys(entries: map<string, ServerEntry>, now: int): set<string>
  {
    set k | k in entries && !IsCacheValid(Some(entries[k]), now)
  }

  /** Every entry is either valid or expired, so the two counts of
      `cache_stats` add up to the total. */
  lemma ValidAndExpired(entries: map<string, ServerEntry>, now: int)
    ensures |ValidKeys(entries, now)| + |ExpiredKeys(entries, now)| == |entries|
  {
    var v, x := ValidKeys(entries, now), ExpiredKeys(entries, now);
    assert v !! x;
    assert v + x == entries.Keys;
  }

  /** The date `search_flights` asks for on the way back: none for a
      one-way trip, the departure date for a day trip, otherwise the
      requested return date. */
  function SearchReturnDate(tripType: string, departureDate: string, returnDate: Option<string>): Option<string>
  {
    if tripType == "one-way" then None
    else if tripType == "day-trip" then Some(departureDate)
    else returnDate
  }

  /** What reaches each route query: a one-way search asks for no return,
      a day trip returns on the departure date, and any other trip type
      passes the return date on only when it is non-empty. */
  lemma ReturnDateRule(tripType: string, departureDate: string, returnDate: Option<string>, r: Amadeus.Route)
    requires departureDate != ""
    ensures var q := Amadeus.QueryFor(r, departureDate, SearchReturnDate(tripType, departureDate, returnDate));
      && (tripType == "one-way" ==> q.returnDate == None)
      && (tripType == "day-trip" ==> q.returnDate == Some(departureDate))
      && (tripType != "one-way" && tripType != "day-trip" ==>
            q.returnDate == if Truthy(returnDate) then returnDate else None)
  {
  }

  /** The reply of `search_flights`. */
  datatype SearchReply =
    | MissingFields                                 // 400
    | Unavailable                                   // 503
    | ServerError(failure: Amadeus.Failure)         // 500
    | Results(flights: seq<Flight>, cached: bool)

  /** The search run for a request that is not served from the cache. */
  function FreshSearch(data: SearchParams, query: Amadeus.RouteQuery -> Amadeus.RouteReply): Amadeus.SearchOutcome
    requires SearchFieldsPresent(data)
  {
    var dep := data.departureDate.value;
    Amadeus.SearchSpec(data.origins, data.destinations, dep, SearchReturnDate(data.tripType, dep, data.returnDate), query)
  }

  /** The module-level `cache` dictionary. */
  class ServerCache {
    var entries: map<string, ServerEntry>

    constructor()
      ensures entries == map[]
    {
      entries := map[];
    }

    /** `search_flights`. `mock` is what `generate_mock_flights` produced
        for this request (it is random); `now` is the `datetime.now()` read
        by the cache check, and `stored` the one read again once the search
        has returned, which stamps the new entry. */
    method Search(data: SearchParams, config: Config, query: Amadeus.RouteQuery -> Amadeus.RouteReply,
                  mock: seq<Flight>, now: int, stored: int) returns (reply: SearchReply)
      modifies this
      ensures !SearchFieldsPresent(data) ==> reply == MissingFields && entries == old(entries)
      ensures SearchFieldsPresent(data) && Lookup(old(entries), RequestKey(data), now).Some? ==>
                reply == Results(Lookup(old(entries), RequestKey(data), now).value, true)
                && entries == old(entries)
      ensures SearchFieldsPresent(data) && Lookup(old(entries), RequestKey(data), now).None? ==>
                if config.devMode then
                  reply == Results(mock, false)
                  && entries == old(entries)[RequestKey(data) := ServerEntry(mock, stored)]
                else if !config.amadeusEnabled then
                  reply == Unavailable && entries == old(entries)
                else match FreshSearch(data, query)
                  case SearchFailed(f) => reply == ServerError(f) && entries == old(entries)
                  case Searched(flights, _) =>
                    reply == Results(flights, false)
                    && entries == old(entries)[RequestKey(data) := ServerEntry(flights, stored)]
    {
      if |data.origins| == 0 || |data.destinations| == 0 || !Truthy(data.departureDate) {
        return MissingFields;
      }
      var key := ServerKey(data.origins, data.destinations, data.departureDate.value, data.returnDate, data.tripType);
      if key in entries && IsCacheValid(Some(entries[key]), now) {
        return Results(entries[key].flights, true);
      }
      var flights: seq<Flight>;
      if config.devMode {
        flights := mock;
      } else if config.amadeusEnabled {
        var dep := data.departureDate.value;
        var outcome := Amadeus.SearchFlights(data.origins, data.destinations, dep,
                                             SearchReturnDate(data.tripType, dep, data.returnDate), query);
        if outcome.SearchFailed? {
          return ServerError(outcome.failure);
        }
        flights := outcome.flights;
      } else {
        return Unavailable;
      }
      entries := entries[key := ServerEntry(flights, stored)];
      reply := Results(flights, false);
    }

    /** `clear_cache` */
    method Clear()
      modifies this
      ensures entries == map[]
    {
      entries := map[];
    }

    /** `cache_stats`: the valid entries are counted one by one. */
    method Stats(now: int) returns (total: int, valid: int, expired: int)
      ensures total == |entries| && valid == |ValidKeys(entries, now)|
      ensures expired == |ExpiredKeys(entries, now)|
    {
      var rest := entries.Keys;
      valid := 0;
      ghost var seen: set<string> := {};
      while rest != {}
        invariant rest <= entries.Keys
        invariant seen == set k | k in entries && k !in rest && IsCacheValid(Some(entries[k]), now)
        invariant valid == |seen|
        decreases rest
      {
        var k :| k in rest;
        if IsCacheValid(Some(entries[k]), now) {
          valid := valid + 1;
          seen := seen + {k};
        }
        rest := rest - {k};
      }
      assert seen == ValidKeys(entries, now);
      total := |entries|;
      expired := total - valid;
      ValidAndExpired(entries, now);
    }
  }

  // ---------------------------------------------------------------------
  // Event stream
  // ---------------------------------------------------------------------

  /** One `data:` event of the stream: a route's flights, or the final
      `{'complete': True, 'total_flights': n}`. */
  datatype ServerEvent =
    | RouteEvent(route: string, flights: seq<Flight>, count: int)
    | CompletionEvent(totalFlights: int)

  /** The response of `search_flights_stream`. `cutOff` is set when the
      generator raised, which ends the already started response. */
  datatype StreamReply =
    | StreamRejected                                  // 400
    | Streamed(events: seq<ServerEvent>, cutOff: bool)

  function RouteEvents(batches: seq<Amadeus.RouteBatch>): (r: seq<ServerEvent>)
    ensures |r| == |batches|
  {
    if |batches| == 0 then []
    else
      var b := batches[|batches| - 1];
      RouteEvents(batches[..|batches| - 1]) + [RouteEvent(b.route, b.flights, |b.flights|)]
  }

  /** What the generator yields for a request. `mock` is the route batches
      the random development generator made. */
  function StreamSpec(data: SearchParams, config: Config, query: Amadeus.RouteQuery -> Amadeus.RouteReply,
                      mock: seq<Amadeus.RouteBatch>): StreamReply
  {
    if !SearchFieldsPresent(data) then StreamRejected
    else if config.devMode then
      Streamed(RouteEvents(mock) + [CompletionEvent(|Flatten(Amadeus.BatchFlights(mock))|)], false)
    else if !config.amadeusEnabled then Streamed([CompletionEvent(0)], false)
    else match FreshSearch(data, query)
      case SearchFailed(_) => Streamed([], true)
      case Searched(flights, batches) => Streamed(RouteEvents(batches) + [CompletionEvent(|flights|)], false)
  }

  /** Appends one event per route batch. */
  method StreamBatches(batches: seq<Amadeus.RouteBatch>, events0: seq<ServerEvent>, flights0: seq<Flight>)
    returns (events: seq<ServerEvent>, flights: seq<Flight>)
    ensures events == events0 + RouteEvents(batches)
    ensures flights == flights0 + Flatten(Amadeus.BatchFlights(batches))
  {
    events, flights := events0, flights0;
    for i := 0 to |batches|
      invariant events == events0 + RouteEvents(batches[..i])
      invariant flights == flights0 + Flatten(Amadeus.BatchFlights(batches[..i]))
    {
      var b := batches[i];
      assert batches[..i + 1][..i] == batches[..i];
      assert Amadeus.BatchFlights(batches[..i + 1]) == Amadeus.BatchFlights(batches[..i]) + [b.flights];
      FlattenAppend(Amadeus.BatchFlights(batches[..i]), b.flights);
      var e := RouteEvent(b.route, b.flights, |b.flights|);
      assert RouteEvents(batches[..i + 1]) == RouteEvents(batches[..i]) + [e];
      AppendAssoc(events0, RouteEvents(batches[..i]), [e]);
      AppendAssoc(flights0, Flatten(Amadeus.BatchFlights(batches[..i])), b.flights);
      events := events + [e];
      flights := flights + b.flights;
    }
    assert batches[..|batches|] == batches;
  }

  /** `search_flights_stream` and its generator. */
  method SearchStream(data: SearchParams, config: Config, query: Amadeus.RouteQuery -> Amadeus.RouteReply,
                      mock: seq<Amadeus.RouteBatch>) returns (reply: StreamReply)
    ensures reply == StreamSpec(data, config, query, mock)
  {
    if |data.origins| == 0 || |data.destinations| == 0 || !Truthy(data.departureDate) {
      return StreamRejected;
    }
    var allFlights: seq<Flight> := [];
    var events: seq<ServerEvent> := [];
    if config.devMode {
      events, allFlights := StreamBatches(mock, [], []);
    } else if config.amadeusEnabled {
      var dep := data.departureDate.value;
      var outcome := Amadeus.SearchFlights(data.origins, data.destinations, dep,
                                           SearchReturnDate(data.tripType, dep, data.returnDate), query);
      if outcome.SearchFailed? {
        return Streamed([], true);
      }
      allFlights := outcome.flights;
      var unused;
      events, unused := StreamBatches(outcome.batches, [], []);
    }
    events := events + [CompletionEvent(|allFlights|)];
    reply := Streamed(events, false);
  }

  /** The sum of the `count` fields of the route events. */
  function CountSum(events: seq<ServerEvent>): int
  {
    if |events| == 0 then 0
    else CountSum(events[..|events| - 1])
         + match events[|events| - 1] case RouteEvent(_, _, n) => n case CompletionEvent(_) => 0
  }

  lemma {:induction false} RouteEventsCount(batches: seq<Amadeus.RouteBatch>)
    ensures CountSum(RouteEvents(batches)) == |Flatten(Amadeus.BatchFlights(batches))|
    ensures forall i :: 0 <= i < |batches| ==> RouteEvents(batches)[i].RouteEvent?
  {
    if |batches| > 0 {
      var init, b := batches[..|batches| - 1], batches[|batches| - 1];
      RouteEventsCount(init);
      var es := RouteEvents(batches);
      assert es[..|es| - 1] == RouteEvents(init);
      assert Amadeus.BatchFlights(batches) == Amadeus.BatchFlights(init) + [b.flights];
      FlattenAppend(Amadeus.BatchFlights(init), b.flights);
    }
  }

  /** A stream that is not cut off ends with exactly one completion event,
      and its total is the number of flights the route events carried. */
  lemma StreamEndsWithCompletion(data: SearchParams, config: Config,
                                 query: Amadeus.RouteQuery -> Amadeus.RouteReply, mock: seq<Amadeus.RouteBatch>)
    ensures var r := StreamSpec(data, config, query, mock);
      r.Streamed? && !r.cutOff ==>
        && |r.events| >= 1
        && r.events[|r.events| - 1] == CompletionEvent(CountSum(r.events[..|r.events| - 1]))
        && forall i :: 0 <= i < |r.events| - 1 ==> r.events[i].RouteEvent?
    ensures var r := StreamSpec(data, config, query, mock);
      r.Streamed? && r.cutOff ==> r.events == []
  {
    var r := StreamSpec(data, config, query, mock);
    if r.Streamed? && !r.cutOff && SearchFieldsPresent(data) {
      if config.devMode {
        RouteEventsCount(mock);
        assert r.events[..|r.events| - 1] == RouteEvents(mock);
      } else if config.amadeusEnabled {
        var dep := data.departureDate.value;
        var ret := SearchReturnDate(data.tripType, dep, data.returnDate);
        var targets := Amadeus.Targets(data.origins, data.destinations);
        Amadeus.BatchesCoverFlights(Amadeus.Routes(data.origins, targets), dep, ret, query);
        var o := FreshSearch(data, query);
        RouteEventsCount(o.batches);
        assert r.events[..|r.events| - 1] == RouteEvents(o.batches);
      } else {
        assert r.events[..0] == [];
      }
    }
  }

  // ---------------------------------------------------------------------
  // Trip planner
  // ---------------------------------------------------------------------

  /** A planner request once its date and trip length are read: the start
      date and the whole days the trip length moves the return date. */
  datatype PlanInput = PlanInput(origins: seq<string>, destinations: seq<string>, start: Date, shift: int,
                                 amadeusEnabled: bool)

  predicate ValidInput(p: PlanInput)
  {
    ValidDate(p.start) && 1 <= p.start.year <= 9999
  }

  /** `trip_length_unit`, "days" when absent. */
  function UnitOf(data: SearchParams): string
  {
    match data.tripLengthUnit
    case None => "days"
    case Some(u) => u
  }

  /** `float(trip_length) * (24 if unit == 'days' else 1)` */
  function TripHours(x: real, unit: string): real
  {
    if unit == "days" then x * 24.0 else x
  }

  /** The request read as a planner input; `None` where `strptime` or
      `float` raises. `parseFloat` stands for `float` on a string. */
  function PlanInputOf(data: SearchParams, config: Config, parseFloat: string -> Option<real>): (r: Option<PlanInput>)
    requires PlannerFieldsPresent(data)
    ensures r.Some? ==> ValidInput(r.value)
  {
    match Parse(data.departureDate.value)
    case None => None
    case Some(start) =>
      match parseFloat(data.tripLength.value)
      case None => None
      case Some(x) =>
        Some(PlanInput(data.origins, data.destinations, start, (TripHours(x, UnitOf(data)) / 24.0).Floor,
                       config.amadeusEnabled))
  }

  /** Dates Python's `datetime` can hold. */
  predicate InRange(d: Date)
  {
    1 <= d.year <= 9999
  }

  /** The return dates tried for a target: two days either side of it. */
  function ReturnWindow(target: Date): (r: seq<Date>)
    requires ValidDate(target)
    ensures |r| == 5 && forall d :: d in r ==> ValidDate(d)
  {
    [AddDays(target, -2), AddDays(target, -1), target, AddDays(target, 1), AddDays(target, 2)]
  }

  /** The window is five consecutive days centred on the target. */
  lemma {:induction false} WindowConsecutive(target: Date)
    requires ValidDate(target)
    ensures var w := ReturnWindow(target);
      w[2] == target && forall i :: 0 <= i < 4 ==> ValidDate(w[i]) && w[i + 1] == NextDay(w[i])
  {
    var w := ReturnWindow(target);
    PrevDayIsPredecessor(target, target);
    PrevDayIsPredecessor(PrevDay(target), target);
    assert w[0] == PrevDay(PrevDay(target)) && w[1] == PrevDay(target);
    assert w[3] == NextDay(target) && w[4] == NextDay(NextDay(target));
  }

  /** Day `k` of the search departs `start + k` days and aims to return
      `shift` days later; it fails where one of these dates leaves the
      calendar (`OverflowError`). */
  predicate DayInRange(p: PlanInput, k: nat)
    requires ValidDate(p.start)
  {
    var cur := AddDays(p.start, k);
    InRange(cur) && WindowInRange(AddDays(cur, p.shift))
  }

  predicate WindowInRange(target: Date)
    requires ValidDate(target)
  {
    forall d :: d in ReturnWindow(target) ==> InRange(d)
  }

  /** The flights of the searches for one departure date and the given
      return dates, in order; `None` if one of them raises. */
  function DayBatch(p: PlanInput, dep: string, returnDates: seq<string>,
                    query: Amadeus.RouteQuery -> Amadeus.RouteReply): Option<seq<Flight>>
  {
    if |returnDates| == 0 then Some([])
    else match DayBatch(p, dep, returnDates[..|returnDates| - 1], query)
      case None => None
      case Some(acc) =>
        match Amadeus.SearchSpec(p.origins, p.destinations, dep, Some(returnDates[|returnDates| - 1]), query)
        case SearchFailed(_) => None
        case Searched(flights, _) => Some(acc + flights)
  }

  lemma DayBatchStep(p: PlanInput, dep: string, returnDates: seq<string>, i: nat,
                     query: Amadeus.RouteQuery -> Amadeus.RouteReply)
    requires i < |returnDates| && DayBatch(p, dep, returnDates[..i], query).Some?
    ensures var o := Amadeus.SearchSpec(p.origins, p.destinations, dep, Some(returnDates[i]), query);
      DayBatch(p, dep, returnDates[..i + 1], query)
      == if o.SearchFailed? then None else Some(DayBatch(p, dep, returnDates[..i], query).value + o.flights)
  {
    assert returnDates[..i + 1][..i] == returnDates[..i];
  }

  /** Once a search has raised, the rest of the day is not searched. */
  lemma {:induction false} DayBatchFailed(p: PlanInput, dep: string, returnDates: seq<string>, n: nat,
                                          query: Amadeus.RouteQuery -> Amadeus.RouteReply)
    requires n <= |returnDates| && DayBatch(p, dep, returnDates[..n], query).None?
    ensures DayBatch(p, dep, returnDates, query).None?
    decreases |returnDates|
  {
    if n < |returnDates| {
      var init := returnDates[..|returnDates| - 1];
      assert init[..n] == returnDates[..n];
      DayBatchFailed(p, dep, init, n, query);
    } else {
      assert returnDates[..n] == returnDates;
    }
  }

  /** The rendered return window of a date in range. */
  function WindowText(target: Date): (r: seq<string>)
    requires ValidDate(target) && WindowInRange(target)
    ensures |r| == 5
  {
    var w := ReturnWindow(target);
    seq(5, i requires 0 <= i < 5 => assert w[i] in w; Format(w[i]))
  }

  /** The flights found on day `k`; `None` if that day raises. Without the
      Amadeus client the loop searches nothing. */
  function DaySearch(p: PlanInput, k: nat, query: Amadeus.RouteQuery -> Amadeus.RouteReply): Option<seq<Flight>>
    requires ValidInput(p)
  {
    if !DayInRange(p, k) then None
    else if !p.amadeusEnabled then Some([])
    else
      var cur := AddDays(p.start, k);
      DayBatch(p, Format(cur), WindowText(AddDays(cur, p.shift)), query)
  }

  /** `all_flights` after the first `n` days. */
  function Accumulated(p: PlanInput, n: nat, query: Amadeus.RouteQuery -> Amadeus.RouteReply): Option<seq<Flight>>
    requires ValidInput(p)
  {
    if n == 0 then Some([])
    else match Accumulated(p, n - 1, query)
      case None => None
      case Some(before) =>
        match DaySearch(p, n - 1, query)
        case None => None
        case Some(batch) => Some(before + batch)
  }

  /** Each of the first `n` days ran and left `find_optimal_trips` empty. */
  predicate NothingFound(p: PlanInput, n: nat, query: Amadeus.RouteQuery -> Amadeus.RouteReply,
                         plan: seq<Flight> -> seq<Flight>)
    requires ValidInput(p)
  {
    forall j: nat :: 1 <= j <= n ==> Accumulated(p, j, query).Some? && |plan(Accumulated(p, j, query).value)| == 0
  }

  /** The flights gathered only grow: each day's list extends the
      previous day's. */
  lemma {:induction false} AccumulatedGrows(p: PlanInput, m: nat, n: nat, query: Amadeus.RouteQuery -> Amadeus.RouteReply)
    requires ValidInput(p) && m <= n && Accumulated(p, n, query).Some?
    ensures Accumulated(p, m, query).Some?
    ensures Accumulated(p, m, query).value <= Accumulated(p, n, query).value
    decreases n
  {
    if m < n {
      AccumulatedGrows(p, m, n - 1, query);
    }
  }

  /** One day of the loop: the departure date, the five return dates, and
      a search per return date when the Amadeus client is there. */
  method SearchDay(p: PlanInput, k: nat, query: Amadeus.RouteQuery -> Amadeus.RouteReply)
    returns (r: Option<seq<Flight>>)
    requires ValidInput(p)
    ensures r == DaySearch(p, k, query)
  {
    var cur := AddDays(p.start, k);
    if !InRange(cur) {
      return None;
    }
    var target := AddDays(cur, p.shift);
    if !WindowInRange(target) {
      return None;
    }
    if !p.amadeusEnabled {
      return Some([]);
    }
    r := SearchWindow(p, Format(cur), WindowText(target), query);
  }

  /** The inner `for` loop: one search per return date, the flights
      gathered in order. */
  method SearchWindow(p: PlanInput, dep: string, returnDates: seq<string>,
                      query: Amadeus.RouteQuery -> Amadeus.RouteReply)
    returns (r: Option<seq<Flight>>)
    ensures r == DayBatch(p, dep, returnDates, query)
  {
    var batch: seq<Flight> := [];
    for i := 0 to |returnDates|
      invariant DayBatch(p, dep, returnDates[..i], query) == Some(batch)
    {
      var outcome := Amadeus.SearchFlights(p.origins, p.destinations, dep, Some(returnDates[i]), query);
      DayBatchStep(p, dep, returnDates, i, query);
      if outcome.SearchFailed? {
        DayBatchFailed(p, dep, returnDates, i + 1, query);
        return None;
      }
      batch := batch + outcome.flights;
    }
    assert returnDates[..|returnDates|] == returnDates;
    r := Some(batch);
  }

  /** The `while` loop of `trip_planner`: day after day until
      `find_optimal_trips` returns something or 30 days have been searched.
      `failed` is set when a day raised. */
  method SearchDays(p: PlanInput, query: Amadeus.RouteQuery -> Amadeus.RouteReply, plan: seq<Flight> -> seq<Flight>)
    returns (days: nat, optimal: seq<Flight>, failed: bool)
    requires ValidInput(p)
    ensures days <= 30 && NothingFound(p, days, query, plan)
    ensures failed ==> days < 30 && Accumulated(p, days + 1, query).None?
    ensures !failed && days < 30 ==>
              Accumulated(p, days + 1, query).Some? && optimal == plan(Accumulated(p, days + 1, query).value)
              && |optimal| > 0
    ensures !failed && days == 30 ==> |optimal| == 0
  {
    var all: seq<Flight> := [];
    optimal, days, failed := [], 0, false;
    while |optimal| == 0 && days < 30
      invariant days <= 30 && |optimal| == 0
      invariant Accumulated(p, days, query) == Some(all)
      invariant NothingFound(p, days, query, plan)
    {
      var batch := SearchDay(p, days, query);
      if batch.None? {
        failed := true;
        return;
      }
      all := all + batch.value;
      optimal := plan(all);
      if |optimal| > 0 {
        break;
      }
      days := days + 1;
    }
  }

  /** The reply of `trip_planner`. */
  datatype PlanReply =
    | PlanMissingFields                              // 400
    | PlanFailed                                     // 500
    | Planned(flights: seq<Flight>, totalOptions: int, targetDuration: string, daysSearched: int,
              earliestDeparture: Option<string>)

  /** `optimal_trips[:20]` */
  function Top(s: seq<Flight>, n: nat): (r: seq<Flight>)
    ensures |r| <= n && r <= s
    ensures |s| <= n ==> r == s
  {
    if |s| <= n then s else s[..n]
  }

  /** A planner reply as the search of `p` determines it: the first day
      whose gathered flights give trips is reported, or day 31 when none
      of the 30 days did. */
  predicate PlannedFor(p: PlanInput, reply: PlanReply, tripLength: string, unit: string,
                       query: Amadeus.RouteQuery -> Amadeus.RouteReply, plan: seq<Flight> -> seq<Flight>)
    requires ValidInput(p)
  {
    && reply.Planned?
    && 1 <= reply.daysSearched <= 31
    && reply.targetDuration == tripLength + " " + unit
    && NothingFound(p, reply.daysSearched - 1, query, plan)
    && (reply.daysSearched <= 30 ==>
          var all := Accumulated(p, reply.daysSearched, query);
          && all.Some?
          && |plan(all.value)| > 0
          && reply.totalOptions == |plan(all.value)|
          && reply.flights == Top(plan(all.value), 20)
          && reply.earliestDeparture == Some(Format(AddDays(p.start, reply.daysSearched - 1))))
    && (reply.daysSearched == 31 ==>
          reply.totalOptions == 0 && reply.flights == [] && reply.earliestDeparture == None)
  }

  /** `trip_planner`. `plan` is `find_optimal_trips` with this request's
      trip length, nonstop and maximum-duration arguments. */
  method TripPlanner(data: SearchParams, config: Config, query: Amadeus.RouteQuery -> Amadeus.RouteReply,
                     parseFloat: string -> Option<real>, plan: seq<Flight> -> seq<Flight>)
    returns (reply: PlanReply)
    ensures !PlannerFieldsPresent(data) <==> reply == PlanMissingFields
    ensures PlannerFieldsPresent(data) && PlanInputOf(data, config, parseFloat).None? ==> reply == PlanFailed
    ensures PlannerFieldsPresent(data) && PlanInputOf(data, config, parseFloat).Some? ==>
              var p := PlanInputOf(data, config, parseFloat).value;
              if reply.PlanFailed? then
                exists n: nat :: 1 <= n <= 30 && NothingFound(p, n - 1, query, plan) && Accumulated(p, n, query).None?
              else PlannedFor(p, reply, data.tripLength.value, UnitOf(data), query, plan)
  {
    if |data.origins| == 0 || |data.destinations| == 0 || !Truthy(data.departureDate) || !Truthy(data.tripLength) {
      return PlanMissingFields;
    }
    var start := Parse(data.departureDate.value);
    if start.None? {
      return PlanFailed;
    }
    var x := parseFloat(data.tripLength.value);
    if x.None? {
      return PlanFailed;
    }
    var unit := UnitOf(data);
    var p := PlanInput(data.origins, data.destinations, start.value, (TripHours(x.value, unit) / 24.0).Floor,
                       config.amadeusEnabled);
    assert p == PlanInputOf(data, config, parseFloat).value;
    var days, optimal, failed := SearchDays(p, query, plan);
    if failed {
      assert NothingFound(p, days + 1 - 1, query, plan);
      return PlanFailed;
    }
    var earliest := if |optimal| > 0 then Some(Format(AddDays(p.start, days))) else None;
    reply := Planned(Top(optimal, 20), |optimal|, data.tripLength.value + " " + unit, days + 1, earliest);
    PlannedReply(p, days, optimal, data.tripLength.value, unit, query, plan);
  }

  /** What the loop leaves, once no day raised, makes the planner's reply. */
  lemma PlannedReply(p: PlanInput, days: nat, optimal: seq<Flight>, tripLength: string, unit: string,
                     query: Amadeus.RouteQuery -> Amadeus.RouteReply, plan: seq<Flight> -> seq<Flight>)
    requires ValidInput(p)
    requires days <= 30 && NothingFound(p, days, query, plan)
    requires days < 30 ==>
               Accumulated(p, days + 1, query).Some? && optimal == plan(Accumulated(p, days + 1, query).value)
               && |optimal| > 0
    requires days == 30 ==> |optimal| == 0
    ensures PlannedFor(p, Planned(Top(optimal, 20), |optimal|, tripLength + " " + unit, days + 1,
                                  if |optimal| > 0 then Some(Format(AddDays(p.start, days))) else None),
                       tripLength, unit, query, plan)
  {
    assert days + 1 - 1 == days;
  }
}
