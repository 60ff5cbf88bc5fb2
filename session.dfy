/** The browser session of `src/App.js`: the search state, the streaming
    callbacks, the trip planner's result, and the build-your-own selection
    flow (outbound, then return, then a complete trip). React's state
    setters become field assignments applied in the order the handler
    makes them; asynchronous callbacks become later method calls. */
module AppSession {
  import opened Common
  import opened Flights
  import opened EventStream

  /** `buildYourOwnStep` */
  datatype Step = Outbound | Return | Complete

  /** `tripPlannerInfo` */
  datatype PlannerInfo = PlannerInfo(daysSearched: int, earliestDeparture: Option<string>, totalOptions: int)

  /** The trip planner's JSON answer; `flights` may be missing. */
  datatype PlanResult = PlanResult(flights: Option<seq<Flight>>, daysSearched: int, earliestDeparture: Option<string>,
                                   totalOptions: int)

  /** The request `handleSearch` sends after resetting the state. */
  datatype Dispatch = PlanTrip(params: SearchParams) | StreamSearch(params: SearchParams)

  /** All session fields at once. */
  datatype View = View(
    searchParams: Option<SearchParams>,
    flights: seq<Flight>,
    loading: bool,
    error: Option<string>,
    fromCache: bool,
    routesSearched: int,
    totalRoutes: int,
    plannerInfo: Option<PlannerInfo>,
    selectedOutbound: Option<Flight>,
    returnFlights: seq<Flight>,
    step: Step)

  const SearchFailedText: string := "Failed to fetch flights. Please try again."
  const PlanFailedText: string := "Failed to plan trip. Please try again."

  /** `err.message || fallback` */
  function ErrorText(message: string, fallback: string): string
  {
    if message != "" then message else fallback
  }

  /** The state change one streaming callback makes. */
  function ApplyOne(v: View, c: Callback): View
  {
    match c
    case OnFlights(batch) => v.(flights := v.flights + batch, routesSearched := v.routesSearched + 1)
    case OnComplete(_, fromCache) => v.(loading := false, fromCache := fromCache)
    case OnError(message) => v.(error := Some(ErrorText(message, SearchFailedText)), loading := false)
  }

  /** The state after a sequence of callbacks, in order. */
  function Apply(v: View, trace: seq<Callback>): View
  {
    if |trace| == 0 then v else ApplyOne(Apply(v, trace[..|trace| - 1]), trace[|trace| - 1])
  }

  /** A callback that ends loading. */
  predicate Finishes(c: Callback)
  {
    c.OnComplete? || c.OnError?
  }

  /** The callbacks of one search: each batch is appended to the list in
      the order it arrives and counted as one route, loading ends exactly
      when an `onComplete` or `onError` has come, and the build-your-own
      selection is untouched. An error leaves the flights received so far. */
  lemma {:induction false} ApplyTrace(v: View, trace: seq<Callback>)
    ensures var w := Apply(v, trace);
      && w.flights == v.flights + Flatten(Batches(trace))
      && w.routesSearched == v.routesSearched + |Batches(trace)|
      && w.loading == (v.loading && forall c :: c in trace ==> !Finishes(c))
      && w.searchParams == v.searchParams && w.selectedOutbound == v.selectedOutbound
      && w.step == v.step && w.returnFlights == v.returnFlights && w.totalRoutes == v.totalRoutes
  {
    if |trace| > 0 {
      var init, c := trace[..|trace| - 1], trace[|trace| - 1];
      ApplyTrace(v, init);
      BatchesAppend(init, c);
      assert trace == init + [c];
      NoneFinishSnoc(init, c);
      var u := Apply(v, init);
      assert Apply(v, trace) == ApplyOne(u, c);
      CallbackFields(u, c);
      if c.OnFlights? {
        FlattenAppend(Batches(init), c.batch);
        AppendAssoc(v.flights, Flatten(Batches(init)), c.batch);
      } else {
        assert Batches(trace) == Batches(init);
      }
    }
  }

  /** What one callback changes, field by field. */
  lemma CallbackFields(u: View, c: Callback)
    ensures ApplyOne(u, c).flights == u.flights + (if c.OnFlights? then c.batch else [])
    ensures ApplyOne(u, c).routesSearched == u.routesSearched + (if c.OnFlights? then 1 else 0)
    ensures ApplyOne(u, c).loading == (u.loading && !Finishes(c))
    ensures ApplyOne(u, c).searchParams == u.searchParams && ApplyOne(u, c).selectedOutbound == u.selectedOutbound
    ensures ApplyOne(u, c).step == u.step && ApplyOne(u, c).returnFlights == u.returnFlights
    ensures ApplyOne(u, c).totalRoutes == u.totalRoutes
  {
  }

  lemma NoneFinishSnoc(init: seq<Callback>, c: Callback)
    ensures (forall x :: x in init + [c] ==> !Finishes(x)) == ((forall x :: x in init ==> !Finishes(x)) && !Finishes(c))
  {
    assert forall x :: x in init + [c] <==> x in init || x == c;
  }

  /** The date the return search departs on: the desired return date, else
      the outbound flight's arrival date under either spelling. */
  function ReturnDeparture(params: SearchParams, f: Flight): Option<string>
  {
    if Truthy(params.desiredReturnDate) then params.desiredReturnDate
    else if Truthy(f.arrivalDate) then f.arrivalDate
    else f.arrivalDateAlt
  }

  /** `returnSearchParams`: a one-way search back from the outbound
      flight's destination to its origin. */
  function ReturnSearch(params: SearchParams, f: Flight): SearchParams
  {
    SearchParams("build-your-own-return", [f.destination], [f.origin], "one-way", ReturnDeparture(params, f),
                 None, None, None, None, None, None, None)
  }

  /** The derived search flies the outbound route backwards, and reaches
      the server's search only when it found a departure date. */
  lemma ReturnSearchReverses(params: SearchParams, f: Flight)
    ensures var q := ReturnSearch(params, f);
      && q.origins == [f.destination] && q.destinations == [f.origin]
      && q.tripType == "one-way" && q.returnDate == None && q.searchMode != "build-your-own"
      && (q.departureDate == params.desiredReturnDate || q.departureDate == f.arrivalDate
          || q.departureDate == f.arrivalDateAlt)
      && (Truthy(q.departureDate) <==>
            Truthy(params.desiredReturnDate) || Truthy(f.arrivalDate) || Truthy(f.arrivalDateAlt))
  {
  }

  /** `completedTrip`: the outbound flight marked as a round trip with the
      chosen return flight and the two fares added up. */
  function CompletedTrip(outbound: Flight, back: Flight): (t: Flight)
    ensures t.isRoundTrip && t.returnFlight == Some(ChosenFlight(back))
    ensures t.totalPrice == Some(outbound.price + back.price)
    ensures t.(isRoundTrip := outbound.isRoundTrip, returnFlight := outbound.returnFlight,
               totalPrice := outbound.totalPrice) == outbound
  {
    outbound.(isRoundTrip := true, returnFlight := Some(ChosenFlight(back)),
              totalPrice := Some(outbound.price + back.price))
  }

  /** `totalRoutes`: every origin paired with every destination. */
  function TotalRoutes(params: SearchParams): int
  {
    |params.origins| * |params.destinations|
  }

  class Session {
    var searchParams: Option<SearchParams>
    var flights: seq<Flight>
    var loading: bool
    var error: Option<string>
    var fromCache: bool
    var routesSearched: int
    var totalRoutes: int
    var plannerInfo: Option<PlannerInfo>
    var selectedOutbound: Option<Flight>
    var returnFlights: seq<Flight>
    var step: Step

    function State(): View
      reads this
    {
      View(searchParams, flights, loading, error, fromCache, routesSearched, totalRoutes, plannerInfo,
           selectedOutbound, returnFlights, step)
    }

    /** The initial `useState` values. */
    constructor()
      ensures State() == View(None, [], false, None, false, 0, 0, None, None, [], Outbound)
    {
      searchParams, flights, loading, error, fromCache := None, [], false, None, false;
      routesSearched, totalRoutes, plannerInfo := 0, 0, None;
      selectedOutbound, returnFlights, step := None, [], Outbound;
    }

    /** The synchronous part of `handleSearch`: the previous results,
        error, flags and counters are cleared (the selection only for a new
        build-your-own search), and the request to send is chosen. */
    method StartSearch(params: SearchParams) returns (d: Dispatch)
      modifies this
      ensures var cleared := old(State()).(searchParams := Some(params), loading := true, error := None, flights := [],
                                           fromCache := false, routesSearched := 0, plannerInfo := None);
        var reset := if params.searchMode == "build-your-own"
                     then cleared.(selectedOutbound := None, step := Outbound, returnFlights := [])
                     else cleared;
        if params.tripType == "trip-planner" then State() == reset && d == PlanTrip(params)
        else State() == reset.(totalRoutes := TotalRoutes(params)) && d == StreamSearch(params)
    {
      ghost var cleared := State().(searchParams := Some(params), loading := true, error := None, flights := [],
                                    fromCache := false, routesSearched := 0, plannerInfo := None);
      ghost var reset := if params.searchMode == "build-your-own"
                         then cleared.(selectedOutbound := None, step := Outbound, returnFlights := [])
                         else cleared;
      searchParams := Some(params);
      loading := true;
      error := None;
      flights := [];
      if params.searchMode == "build-your-own" {
        selectedOutbound := None;
        step := Outbound;
        returnFlights := [];
      }
      fromCache := false;
      routesSearched := 0;
      plannerInfo := None;
      assert State() == reset;
      if params.tripType == "trip-planner" {
        return PlanTrip(params);
      }
      totalRoutes := |params.origins| * |params.destinations|;
      assert State() == reset.(totalRoutes := TotalRoutes(params));
      d := StreamSearch(params);
    }

    /** The `onFlights` callback. */
    method OnFlightsArrived(batch: seq<Flight>)
      modifies this
      ensures State() == ApplyOne(old(State()), OnFlights(batch))
    {
      flights := flights + batch;
      routesSearched := routesSearched + 1;
    }

    /** The `onComplete` callback. */
    method OnCompleted(total: int, cached: bool)
      modifies this
      ensures State() == ApplyOne(old(State()), OnComplete(total, cached))
    {
      loading := false;
      fromCache := cached;
    }

    /** The `onError` callback. */
    method OnFailed(message: string)
      modifies this
      ensures State() == ApplyOne(old(State()), OnError(message))
    {
      error := Some(ErrorText(message, SearchFailedText));
      loading := false;
    }

    /** The callbacks of a streaming search, delivered in order. */
    method Deliver(trace: seq<Callback>)
      modifies this
      ensures State() == Apply(old(State()), trace)
    {
      for i := 0 to |trace|
        invariant State() == Apply(old(State()), trace[..i])
      {
        assert trace[..i + 1][..i] == trace[..i];
        match trace[i] {
          case OnFlights(batch) => OnFlightsArrived(batch);
          case OnComplete(total, cached) => OnCompleted(total, cached);
          case OnError(message) => OnFailed(message);
        }
      }
      assert trace[..|trace|] == trace;
    }

    /** The trip planner answered: its flights (or none) and its summary. */
    method PlanArrived(result: PlanResult)
      modifies this
      ensures State() == old(State()).(
                flights := (match result.flights case Some(fs) => fs case None => []),
                plannerInfo := Some(PlannerInfo(result.daysSearched, result.earliestDeparture, result.totalOptions)),
                loading := false)
    {
      flights := match result.flights case Some(fs) => fs case None => [];
      plannerInfo := Some(PlannerInfo(result.daysSearched, result.earliestDeparture, result.totalOptions));
      loading := false;
    }

    /** The trip planner request failed. */
    method PlanRejected(message: string)
      modifies this
      ensures State() == old(State()).(error := Some(ErrorText(message, PlanFailedText)), loading := false)
    {
      error := Some(ErrorText(message, PlanFailedText));
      loading := false;
    }

    /** `handleSelectOutboundFlight`: remember the flight, move to the
        return step and start the reversed one-way search. The results list
        that offers the flight is only shown once a search has been made. */
    method SelectOutbound(f: Flight) returns (d: Dispatch)
      requires searchParams.Some?
      modifies this
      ensures var q := ReturnSearch(old(searchParams).value, f);
        && State() == old(State()).(selectedOutbound := Some(f), step := Return, returnFlights := [],
                                    searchParams := Some(q), loading := true, error := None, flights := [],
                                    fromCache := false, routesSearched := 0, plannerInfo := None,
                                    totalRoutes := 1)
        && d == StreamSearch(q)
    {
      selectedOutbound := Some(f);
      step := Return;
      returnFlights := [];
      var q := ReturnSearch(searchParams.value, f);
      d := StartSearch(q);
    }

    /** `handleSelectReturnFlight`: the flights become the one completed
        trip. Without an outbound selection reading its price throws and
        nothing changes (`ok` is false). */
    method SelectReturn(back: Flight) returns (ok: bool)
      modifies this
      ensures ok <==> old(selectedOutbound).Some?
      ensures ok ==> State() == old(State()).(flights := [CompletedTrip(old(selectedOutbound).value, back)],
                                              step := Complete)
      ensures !ok ==> State() == old(State())
    {
      if selectedOutbound.None? {
        return false;
      }
      flights := [CompletedTrip(selectedOutbound.value, back)];
      step := Complete;
      ok := true;
    }

    /** `handleResetBuildYourOwn` */
    method Reset()
      modifies this
      ensures State() == old(State()).(selectedOutbound := None, returnFlights := [], step := Outbound, flights := [])
    {
      selectedOutbound := None;
      returnFlights := [];
      step := Outbound;
      flights := [];
    }
  }

  /** Choosing an outbound flight leaves the session at the return step
      with that flight kept, however the return search's callbacks go: the
      derived search is not a build-your-own search, so it does not reset
      the selection. */
  lemma OutboundSurvivesReturnSearch(v: View, f: Flight, trace: seq<Callback>)
    requires v.searchParams.Some?
    ensures var q := ReturnSearch(v.searchParams.value, f);
      var started := v.(selectedOutbound := Some(f), step := Return, returnFlights := [], searchParams := Some(q),
                        loading := true, error := None, flights := [], fromCache := false, routesSearched := 0,
                        plannerInfo := None, totalRoutes := 1);
      var w := Apply(started, trace);
      w.step == Return && w.selectedOutbound == Some(f) && w.flights == Flatten(Batches(trace))
  {
    var q := ReturnSearch(v.searchParams.value, f);
    var started := v.(selectedOutbound := Some(f), step := Return, returnFlights := [], searchParams := Some(q),
                      loading := true, error := None, flights := [], fromCache := false, routesSearched := 0,
                      plannerInfo := None, totalRoutes := 1);
    ApplyTrace(started, trace);
  }
}
