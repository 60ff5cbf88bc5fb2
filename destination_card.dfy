/** The summary line of `src/components/DestinationCard.js`: the cheapest
    flight of a destination's list, the number of nonstop flights in it,
    and whether the card shows a trip planner result. */
module DestinationCard {
  import opened Flights
  import FlightResults

  /** `flights.reduce((min, f) => f.price < min.price ? f : min, seed)` */
  function Reduce(seed: Flight, fs: seq<Flight>): Flight
  {
    if |fs| == 0 then seed
    else
      var m := Reduce(seed, fs[..|fs| - 1]);
      if fs[|fs| - 1].price < m.price then fs[|fs| - 1] else m
  }

  /** `cheapestFlight`: the reduce seeded with the first flight. The card is
      only built for a non-empty list. */
  function Cheapest(fs: seq<Flight>): Flight
    requires |fs| > 0
  {
    Reduce(fs[0], fs)
  }

  /** Over the first `n` flights the reduce returns the first flight of the
      lowest fare: none is cheaper, and every earlier one is dearer. */
  lemma {:induction false} ReduceFirstMinimum(fs: seq<Flight>, n: nat)
    requires 1 <= n <= |fs|
    ensures exists i :: (0 <= i < n && Reduce(fs[0], fs[..n]) == fs[i]
      && (forall j :: 0 <= j < n ==> fs[i].price <= fs[j].price)
      && (forall j :: 0 <= j < i ==> fs[j].price > fs[i].price))
  {
    var m := Reduce(fs[0], fs[..n]);
    assert fs[..n][..n - 1] == fs[..n - 1];
    if n == 1 {
      assert Reduce(fs[0], fs[..0]) == fs[0];
      assert m == fs[0];
    } else {
      ReduceFirstMinimum(fs, n - 1);
      var i :| 0 <= i < n - 1 && Reduce(fs[0], fs[..n - 1]) == fs[i]
        && (forall j :: 0 <= j < n - 1 ==> fs[i].price <= fs[j].price)
        && (forall j :: 0 <= j < i ==> fs[j].price > fs[i].price);
      if fs[n - 1].price < fs[i].price {
        assert m == fs[n - 1];
      } else {
        assert m == fs[i];
      }
    }
  }

  /** The cheapest flight is one of the flights, no flight is cheaper, and
      among flights of equal lowest fare the earliest is chosen (the
      comparison is a strict `<`). */
  lemma CheapestIsFirstMinimum(fs: seq<Flight>)
    requires |fs| > 0
    ensures exists i :: (0 <= i < |fs| && Cheapest(fs) == fs[i]
      && (forall j :: 0 <= j < |fs| ==> fs[i].price <= fs[j].price)
      && (forall j :: 0 <= j < i ==> fs[j].price > fs[i].price))
  {
    ReduceFirstMinimum(fs, |fs|);
    assert fs[..|fs|] == fs;
  }

  /** The card's "from" fare is the fare the results list orders the
      destinations by. */
  lemma CheapestIsGroupPrice(fs: seq<Flight>)
    requires |fs| > 0
    ensures Cheapest(fs).price == FlightResults.MinPrice(fs)
  {
    CheapestIsFirstMinimum(fs);
    FlightResults.MinPriceIsMinimum(fs);
    var i :| 0 <= i < |fs| && Cheapest(fs) == fs[i] && (forall j :: 0 <= j < |fs| ==> fs[i].price <= fs[j].price);
    var k :| 0 <= k < |fs| && fs[k].price == FlightResults.MinPrice(fs);
  }

  /** `flights.filter(f => f.stops === 0).length` */
  function NonstopCount(fs: seq<Flight>): nat
  {
    |FlightResults.Nonstop(fs)|
  }

  /** The count is at most the number of flights; it is the whole list
      exactly when every flight is nonstop, and zero exactly when none is. */
  lemma {:induction false} NonstopCountBounds(fs: seq<Flight>)
    ensures NonstopCount(fs) <= |fs|
    ensures NonstopCount(fs) == |fs| <==> forall i :: 0 <= i < |fs| ==> fs[i].stops == 0
    ensures NonstopCount(fs) == 0 <==> forall i :: 0 <= i < |fs| ==> fs[i].stops != 0
  {
    if |fs| > 0 {
      var init := fs[..|fs| - 1];
      NonstopCountBounds(init);
      assert forall i :: 0 <= i < |init| ==> init[i] == fs[i];
    }
  }

  /** `isTripPlanner`: the cheapest flight carries a trip duration. */
  predicate IsTripPlanner(fs: seq<Flight>)
    requires |fs| > 0
  {
    Cheapest(fs).tripDurationDisplay.Some?
  }

  /** Trip planner results all carry a duration and other results none, so
      the card's mode follows the kind of results it shows. */
  lemma TripPlannerCard(fs: seq<Flight>)
    requires |fs| > 0
    ensures (forall i :: 0 <= i < |fs| ==> fs[i].tripDurationDisplay.Some?) ==> IsTripPlanner(fs)
    ensures (forall i :: 0 <= i < |fs| ==> fs[i].tripDurationDisplay.None?) ==> !IsTripPlanner(fs)
  {
    CheapestIsFirstMinimum(fs);
  }
}
