/** The Amadeus side of the server (`AmadeusFlightSearch` in
    backend/amadeus_api.py): the route loop of `search_flights`, the
    conversion of flight offers into the app's flight records, and the
    helpers it uses (duration text, airline names, popular destinations and
    the GoWild eligibility rule). The call into the Amadeus SDK is the
    parameter `query`; an offer is the part of the SDK's JSON these helpers
    read. */
module Amadeus {
  import opened Common
  import opened Flights

  /** The Python exceptions these helpers raise or catch. */
  datatype Failure = KeyError | IndexError | ValueError

  /** A value, or the exception raised while computing it. */
  datatype Attempt<T> = Done(value: T) | Raised(failure: Failure)

  // ---------------------------------------------------------------------
  // The offer JSON
  // ---------------------------------------------------------------------

  /** A segment: `carrierCode`, `number`, the calendar date of
      `arrival.at`, `aircraft.code` and `cabin` (absent keys are `None`). */
  datatype Segment = Segment(
    carrierCode: Option<string>,
    number: Option<string>,
    arrivalDate: string,
    aircraftCode: Option<string>,
    cabin: Option<string>)

  /** One direction of travel: `segments` and the ISO 8601 `duration`. */
  datatype Itinerary = Itinerary(segments: Option<seq<Segment>>, duration: Option<string>)

  /** An entry of `fareDetailsBySegment`; an absent key reads as `''`. */
  datatype FareDetail = FareDetail(cabin: string, fareBasis: string, bookingClass: string)

  /** An entry of `travelerPricings`; absent details read as `[]`. */
  datatype TravelerPricing = TravelerPricing(fareDetailsBySegment: seq<FareDetail>)

  /** `price.total`: missing, not a number for `float`, or an amount. */
  datatype PriceTotal = NoPrice | BadPrice | Amount(value: real)

  /** A flight offer; absent `travelerPricings` read as `[]`. */
  datatype Offer = Offer(itineraries: Option<seq<Itinerary>>, travelerPricings: seq<TravelerPricing>, priceTotal: PriceTotal)

  // ---------------------------------------------------------------------
  // int(), str() and str.replace
  // ---------------------------------------------------------------------

  /** `str(i)` for a whole number. */
  function IntToString(i: int): string
  {
    if i < 0 then "-" + NatToString(-i) else NatToString(i)
  }

  /** `int(s)` for text made of an optional sign and ASCII digits; `None`
      where Python raises `ValueError`. */
  function PyInt(s: string): Option<int>
  {
    if |s| > 0 && (s[0] == '+' || s[0] == '-') then
      if |s| > 1 && AllDigits(s[1..]) then
        var v: int := DigitsValue(s[1..]);
        Some(if s[0] == '-' then -v else v)
      else None
    else if |s| > 0 && AllDigits(s) then Some(DigitsValue(s))
    else None
  }

  /** `int(str(i)) == i` */
  lemma PyIntRoundTrip(i: int)
    ensures PyInt(IntToString(i)) == Some(i)
  {
    var s := IntToString(i);
    if i < 0 {
      NatToStringRoundTrip(-i);
      assert s[0] == '-' && s[1..] == NatToString(-i);
      assert PyInt(s) == Some(i);
    } else {
      NatToStringRoundTrip(i);
      assert IsDigit(s[0]);
      assert PyInt(s) == Some(DigitsValue(s));
    }
  }

  /** `s.replace(pat, '')`: the occurrences found scanning left to right,
      without overlap, are dropped. */
  function Remove(s: string, pat: string): (r: string)
    requires |pat| > 0
    ensures |r| <= |s|
    decreases |s|
  {
    if |s| < |pat| then s
    else if s[..|pat|] == pat then Remove(s[|pat|..], pat)
    else [s[0]] + Remove(s[1..], pat)
  }

  /** Text without the pattern's first character is left as it is. */
  lemma {:induction false} RemoveAbsent(s: string, pat: string)
    requires |pat| > 0 && pat[0] !in s
    ensures Remove(s, pat) == s
    decreases |s|
  {
    if |s| >= |pat| {
      assert s[..|pat|][0] != pat[0];
      RemoveAbsent(s[1..], pat);
      assert s == [s[0]] + s[1..];
    }
  }

  /** Removing a one-character pattern leaves none of that character. */
  lemma {:induction false} RemoveChar(s: string, c: char)
    ensures c !in Remove(s, [c])
    decreases |s|
  {
    if |s| >= 1 {
      RemoveChar(s[1..], c);
    }
  }

  /** A trailing pattern character is dropped and nothing else. */
  lemma {:induction false} RemoveTrailing(a: string, c: char)
    requires c !in a
    ensures Remove(a + [c], [c]) == a
    decreases |a|
  {
    if |a| == 0 {
      assert Remove([c], [c]) == Remove([], [c]);
    } else {
      assert (a + [c])[1..] == a[1..] + [c];
      RemoveTrailing(a[1..], c);
      assert a == [a[0]] + a[1..];
    }
  }

  // ---------------------------------------------------------------------
  // _format_duration
  // ---------------------------------------------------------------------

  /** The hours: the text before the first `H`, if there is one. */
  function HoursOf(d: string): Option<int>
  {
    if 'H' in d then PyInt(Split(d, 'H')[0]) else Some(0)
  }

  /** What is left for the minutes: the text between the first and second
      `H`, or all of it when there is no `H`. */
  function AfterHours(d: string): string
  {
    if 'H' in d then Split(d, 'H')[1] else d
  }

  /** The minutes: the text with every `M` dropped, if it has one. */
  function MinutesOf(rest: string): Option<int>
  {
    if 'M' in rest then PyInt(Remove(rest, "M")) else Some(0)
  }

  /** The f-strings, by the truthiness of the two numbers. */
  function RenderDuration(hours: int, minutes: int): string
  {
    if hours != 0 && minutes != 0 then IntToString(hours) + "h " + IntToString(minutes) + "m"
    else if hours != 0 then IntToString(hours) + "h"
    else IntToString(minutes) + "m"
  }

  /** `_format_duration`: drop every `PT`, read the hours and then the
      minutes, and render the non-zero parts. `None` where `int` raises
      `ValueError`. */
  function FormatDuration(duration: string): Option<string>
  {
    var d := Remove(duration, "PT");
    var hours := HoursOf(d);
    var minutes := MinutesOf(AfterHours(d));
    if hours.None? || minutes.None? then None else Some(RenderDuration(hours.value, minutes.value))
  }

  lemma DigitsAvoid(s: string, c: char)
    requires AllDigits(s) && !IsDigit(c)
    ensures c !in s
  {
  }

  /** `int` reads back a rendered natural number. */
  lemma PyIntOfNat(n: nat)
    ensures PyInt(NatToString(n)) == Some(n)
  {
    NatToStringRoundTrip(n);
  }

  /** A leading `PT` is dropped and nothing else when no other `P` follows. */
  lemma StripDesignator(x: string)
    requires 'P' !in x
    ensures Remove("PT" + x, "PT") == x
  {
    var s := "PT" + x;
    assert s[..2] == "PT" && s[2..] == x;
    RemoveAbsent(x, "PT");
  }

  /** Digits before an `H`: they are the hours, and the text after the `H`
      up to the next one is left for the minutes. */
  lemma HoursField(n: nat, tail: string)
    requires 'H' !in tail
    ensures HoursOf(NatToString(n) + "H" + tail) == Some(n)
    ensures AfterHours(NatToString(n) + "H" + tail) == tail
  {
    var ns := NatToString(n);
    NatToStringRoundTrip(n);
    PyIntOfNat(n);
    DigitsAvoid(ns, 'H');
    assert ns + "H" + tail == ns + ['H'] + tail;
    SplitAfterPiece(ns, 'H', tail);
    SplitWithout(tail, 'H');
  }

  /** Digits and an `M`: they are the minutes. */
  lemma MinutesField(n: nat)
    ensures MinutesOf(NatToString(n) + "M") == Some(n)
  {
    var ns := NatToString(n);
    NatToStringRoundTrip(n);
    PyIntOfNat(n);
    DigitsAvoid(ns, 'M');
    RemoveTrailing(ns, 'M');
    assert ns + "M" == ns + ['M'];
  }

  /** Once the parts are read, the text is their rendering. */
  lemma DurationFromParts(duration: string, d: string, h: int, m: int)
    requires Remove(duration, "PT") == d
    requires HoursOf(d) == Some(h) && MinutesOf(AfterHours(d)) == Some(m)
    ensures FormatDuration(duration) == Some(RenderDuration(h, m))
  {
  }

  lemma StripHoursAndMinutes(h: nat, m: nat)
    ensures Remove("PT" + NatToString(h) + "H" + NatToString(m) + "M", "PT")
      == NatToString(h) + "H" + (NatToString(m) + "M")
  {
    var hs, ms := NatToString(h), NatToString(m);
    NatToStringRoundTrip(h);
    NatToStringRoundTrip(m);
    DigitsAvoid(hs, 'P');
    DigitsAvoid(ms, 'P');
    HoursMinutesText(hs, ms);
    StripDesignator(hs + "H" + (ms + "M"));
  }

  /** The regrouping of `PT{h}H{m}M`, and its lack of a second `P`. */
  lemma HoursMinutesText(hs: string, ms: string)
    requires 'P' !in hs && 'P' !in ms
    ensures "PT" + hs + "H" + ms + "M" == "PT" + (hs + "H" + (ms + "M"))
    ensures 'P' !in hs + "H" + (ms + "M")
  {
    var x := hs + "H" + (ms + "M");
    assert |x| == |hs| + 1 + |ms| + 1;
    forall i | 0 <= i < |x|
      ensures x[i] != 'P'
    {
      if i < |hs| {
        assert x[i] == hs[i];
      } else if |hs| < i < |hs| + 1 + |ms| {
        assert x[i] == ms[i - |hs| - 1];
      }
    }
  }

  lemma ReadHoursAndMinutes(h: nat, m: nat)
    ensures FormatDuration("PT" + NatToString(h) + "H" + NatToString(m) + "M") == Some(RenderDuration(h, m))
  {
    var hs, ms := NatToString(h), NatToString(m);
    StripHoursAndMinutes(h, m);
    NatToStringRoundTrip(m);
    DigitsAvoid(ms, 'H');
    HoursField(h, ms + "M");
    MinutesField(m);
    DurationFromParts("PT" + hs + "H" + ms + "M", hs + "H" + (ms + "M"), h, m);
  }

  /** `PT{h}H{m}M` renders as `{h}h {m}m`, dropping a zero part (and
      `0m` when both are zero). */
  lemma DurationHoursAndMinutes(h: nat, m: nat)
    ensures FormatDuration("PT" + NatToString(h) + "H" + NatToString(m) + "M")
      == Some(if h != 0 && m != 0 then NatToString(h) + "h " + NatToString(m) + "m"
              else if h != 0 then NatToString(h) + "h"
              else NatToString(m) + "m")
  {
    ReadHoursAndMinutes(h, m);
    RenderNats(h, m);
  }

  lemma RenderNats(h: nat, m: nat)
    ensures RenderDuration(h, m)
      == if h != 0 && m != 0 then NatToString(h) + "h " + NatToString(m) + "m"
         else if h != 0 then NatToString(h) + "h"
         else NatToString(m) + "m"
  {
  }

  /** `PT{m}M` renders as `{m}m`. */
  lemma DurationMinutesOnly(m: nat)
    ensures FormatDuration("PT" + NatToString(m) + "M") == Some(NatToString(m) + "m")
  {
    var ms := NatToString(m);
    NatToStringRoundTrip(m);
    DigitsAvoid(ms, 'P');
    DigitsAvoid(ms, 'H');
    assert "PT" + ms + "M" == "PT" + (ms + "M");
    StripDesignator(ms + "M");
    MinutesField(m);
    DurationFromParts("PT" + ms + "M", ms + "M", 0, m);
    RenderNats(0, m);
  }

  lemma ReadHoursOnly(h: nat)
    ensures FormatDuration("PT" + NatToString(h) + "H") == Some(RenderDuration(h, 0))
  {
    var hs := NatToString(h);
    NatToStringRoundTrip(h);
    DigitsAvoid(hs, 'P');
    assert hs + "H" + "" == hs + "H";
    assert "PT" + hs + "H" == "PT" + (hs + "H");
    StripDesignator(hs + "H");
    HoursField(h, "");
    assert MinutesOf("") == Some(0);
    DurationFromParts("PT" + hs + "H", hs + "H", h, 0);
  }

  /** `PT{h}H` renders as `{h}h`, or `0m` for zero hours. */
  lemma DurationHoursOnly(h: nat)
    ensures FormatDuration("PT" + NatToString(h) + "H")
      == Some(if h != 0 then NatToString(h) + "h" else "0m")
  {
    ReadHoursOnly(h);
    RenderNats(h, 0);
    assert NatToString(0) == "0";
    assert NatToString(0) + "m" == "0m";
  }

  lemma DaysTextKeepsDesignator()
    ensures Remove("P1DT2H", "PT") == "P1DT2H"
  {
    var s := "P1DT2H";
    assert s[..2][1] == '1';
    assert 'P' !in s[1..];
    RemoveAbsent(s[1..], "PT");
    assert s == [s[0]] + s[1..];
  }

  /** A duration with a day part has no `PT` to drop, so `int` is handed
      the text before `H` and raises. */
  lemma DurationWithDaysRaises()
    ensures FormatDuration("P1DT2H").None?
  {
    DaysTextKeepsDesignator();
    DaysHoursRaise();
  }

  lemma DaysHoursRaise()
    ensures HoursOf("P1DT2H").None?
  {
    var head := "P1DT2";
    assert head + ['H'] + "" == "P1DT2H";
    HeadBeforeH(head, "");
    assert !IsDigit(head[0]) && !AllDigits(head);
  }

  /** The hours text of `a H b` is `a` when `a` has no `H`. */
  lemma HeadBeforeH(a: string, b: string)
    requires 'H' !in a
    ensures HoursOf(a + ['H'] + b) == PyInt(a)
  {
    var s := a + ['H'] + b;
    assert s[|a|] == 'H';
    SplitAfterPiece(a, 'H', b);
  }

  // ---------------------------------------------------------------------
  // _get_airline_name and _get_popular_destinations
  // ---------------------------------------------------------------------

  const Airlines: map<string, string> := map[
    "F9" := "Frontier Airlines",
    "AA" := "American Airlines",
    "UA" := "United Airlines",
    "DL" := "Delta Air Lines",
    "WN" := "Southwest Airlines",
    "B6" := "JetBlue Airways",
    "NK" := "Spirit Airlines",
    "AS" := "Alaska Airlines"]

  /** `_get_airline_name`: the name of a listed code; any other code comes
      back as it is, and only then (no name equals its code). */
  function AirlineName(code: string): (name: string)
    ensures code in Airlines ==> name == Airlines[code]
    ensures name == code <==> code !in Airlines
  {
    if code in Airlines then Airlines[code] else code
  }

  const Popular: seq<string> := ["MCO", "LAS", "MIA", "PHX", "ATL", "LAX", "DFW", "ORD", "DEN", "SEA"]

  /** `[x for x in xs if x not in origins]` */
  function Without(xs: seq<string>, origins: seq<string>): (r: seq<string>)
    ensures |r| <= |xs|
    ensures forall x :: x in r <==> x in xs && x !in origins
  {
    if |xs| == 0 then []
    else
      var init := Without(xs[..|xs| - 1], origins);
      var x := xs[|xs| - 1];
      assert xs == xs[..|xs| - 1] + [x];
      if x in origins then init else init + [x]
  }

  /** `a` is `b` with some elements left out, the rest in order. */
  predicate Subsequence(a: seq<string>, b: seq<string>)
    decreases |b|
  {
    |a| == 0
    || (|b| > 0
        && (if a[|a| - 1] == b[|b| - 1] then Subsequence(a[..|a| - 1], b[..|b| - 1])
            else Subsequence(a, b[..|b| - 1])))
  }

  lemma {:induction false} WithoutInOrder(xs: seq<string>, origins: seq<string>)
    ensures Subsequence(Without(xs, origins), xs)
  {
    if |xs| > 0 {
      var init := Without(xs[..|xs| - 1], origins);
      var x := xs[|xs| - 1];
      WithoutInOrder(xs[..|xs| - 1], origins);
      if x !in origins {
        assert (init + [x])[..|init|] == init;
      } else if |init| > 0 {
        assert init[|init| - 1] in init;
      }
    }
  }

  /** `_get_popular_destinations`: the popular airports that are not
      origins, at most ten. */
  function PopularDestinations(origins: seq<string>): (r: seq<string>)
    ensures |r| <= 10
    ensures forall d :: d in r <==> d in Popular && d !in origins
  {
    var kept := Without(Popular, origins);
    kept[..if |kept| < 10 then |kept| else 10]
  }

  /** The popular destinations keep the table's order. */
  lemma PopularInOrder(origins: seq<string>)
    ensures Subsequence(PopularDestinations(origins), Popular)
  {
    var kept := Without(Popular, origins);
    assert kept[..|kept|] == kept;
    WithoutInOrder(Popular, origins);
  }

  // ---------------------------------------------------------------------
  // _is_gowild_eligible
  // ---------------------------------------------------------------------

  const GoWildClasses: seq<string> := ["V", "Q", "X", "N", "O", "S"]

  function UpperChar(c: char): char
  {
    if 'a' <= c <= 'z' then (c as int - 32) as char else c
  }

  /** `s.upper()` on ASCII letters. */
  function Upper(s: string): (r: string)
    ensures |r| == |s|
  {
    seq(|s|, i requires 0 <= i < |s| => UpperChar(s[i]))
  }

  /** A fare of the restricted economy kind GoWild seats use. */
  predicate GoWildFare(f: FareDetail)
  {
    Upper(f.cabin) == "ECONOMY"
    && (f.bookingClass in GoWildClasses
        || (f.fareBasis != "" && exists code :: code in GoWildClasses && StartsWith(f.fareBasis, code)))
  }

  /** The offer gets to the fare check: it has an itinerary whose first
      segment is flown by Frontier (F9), and fare details for the first
      traveler. A failed lookup counts as not getting there. */
  predicate FrontierFares(o: Offer)
  {
    o.itineraries.Some? && |o.itineraries.value| > 0
    && o.itineraries.value[0].segments.Some? && |o.itineraries.value[0].segments.value| > 0
    && o.itineraries.value[0].segments.value[0].carrierCode == Some("F9")
    && |o.travelerPricings| > 0 && |o.travelerPricings[0].fareDetailsBySegment| > 0
  }

  /** The eligibility rule: a Frontier offer with a GoWild fare on some
      segment, or failing that with a total under 100. */
  predicate GoWildRule(o: Offer)
  {
    FrontierFares(o)
    && ((exists i :: 0 <= i < |o.travelerPricings[0].fareDetailsBySegment|
                     && GoWildFare(o.travelerPricings[0].fareDetailsBySegment[i]))
        || (o.priceTotal.Amount? && o.priceTotal.value < 100.0))
  }

  /** `_is_gowild_eligible`: the checks in order, returning early, with
      `False` for every lookup that raises. */
  method IsGoWildEligible(offer: Offer) returns (eligible: bool)
    ensures eligible == GoWildRule(offer)
  {
    var itineraries := if offer.itineraries.Some? then offer.itineraries.value else [];
    if |itineraries| == 0 {
      return false;
    }
    if itineraries[0].segments.None? || |itineraries[0].segments.value| == 0 {
      return false;
    }
    var carrier := itineraries[0].segments.value[0].carrierCode;
    if carrier != Some("F9") {
      return false;
    }
    var travelerPricings := offer.travelerPricings;
    if |travelerPricings| == 0 {
      return false;
    }
    var fares := travelerPricings[0].fareDetailsBySegment;
    if |fares| == 0 {
      return false;
    }
    var i := 0;
    while i < |fares|
      invariant 0 <= i <= |fares|
      invariant forall k :: 0 <= k < i ==> !GoWildFare(fares[k])
    {
      var fare := fares[i];
      if Upper(fare.cabin) == "ECONOMY" {
        if fare.bookingClass in GoWildClasses {
          return true;
        }
        if fare.fareBasis != "" {
          var j := 0;
          while j < |GoWildClasses|
            invariant 0 <= j <= |GoWildClasses|
            invariant forall k :: 0 <= k < j ==> !StartsWith(fare.fareBasis, GoWildClasses[k])
          {
            if StartsWith(fare.fareBasis, GoWildClasses[j]) {
              assert GoWildFare(fare);
              return true;
            }
            j := j + 1;
          }
        }
      }
      i := i + 1;
    }
    match offer.priceTotal {
      case NoPrice =>
        return false;
      case BadPrice =>
        return false;
      case Amount(price) =>
        return price < 100.0;
    }
  }

  // ---------------------------------------------------------------------
  // _parse_itinerary and _convert_amadeus_to_app_format
  // ---------------------------------------------------------------------

  /** The failure of `segments[0]`, if any. */
  function FirstSegmentFailure(it: Itinerary): Option<Failure>
  {
    if it.segments.None? then Some(KeyError)
    else if |it.segments.value| == 0 then Some(IndexError)
    else None
  }

  /** `_parse_itinerary`: the leg of an itinerary, with the lookups in the
      source's order. */
  function ParseItinerary(it: Itinerary, origin: string, destination: string): (r: Attempt<Leg>)
    ensures r.Done? ==>
      && it.segments.Some? && |it.segments.value| > 0
      && r.value.origin == origin && r.value.destination == destination
      && r.value.stops == |it.segments.value| - 1 && r.value.stops >= 0
      && it.segments.value[0].carrierCode.Some? && it.segments.value[0].number.Some?
      && r.value.flightNumber == it.segments.value[0].carrierCode.value + it.segments.value[0].number.value
      && r.value.airline == AirlineName(it.segments.value[0].carrierCode.value)
      && it.duration.Some? && FormatDuration(it.duration.value) == Some(r.value.duration)
    ensures r.Raised? ==> (r.failure == ValueError <==>
      FirstSegmentFailure(it).None? && it.duration.Some? && it.segments.value[0].carrierCode.Some?
      && it.segments.value[0].number.Some? && FormatDuration(it.duration.value).None?)
  {
    if FirstSegmentFailure(it).Some? then Raised(FirstSegmentFailure(it).value)
    else
      var segments := it.segments.value;
      var first, last := segments[0], segments[|segments| - 1];
      if it.duration.None? || first.carrierCode.None? || first.number.None? then Raised(KeyError)
      else match FormatDuration(it.duration.value)
        case None => Raised(ValueError)
        case Some(text) =>
          Done(Leg(origin, destination, last.arrivalDate, text, AirlineName(first.carrierCode.value),
                   first.carrierCode.value + first.number.value, |segments| - 1,
                   if last.aircraftCode.Some? then last.aircraftCode.value else "N/A",
                   if first.cabin.Some? then first.cabin.value else "Economy"))
  }

  /** The flight record of an outbound leg with the offer's fare fields. */
  function LegFlight(leg: Leg, price: real, gowild: bool, back: Option<ReturnLeg>): Flight
  {
    Flight(leg.origin, leg.destination, price, leg.stops, gowild, Some(leg.arrivalDate), None, None,
           back.Some?, back, if back.Some? then Some(price) else None,
           leg.duration, leg.airline, leg.flightNumber, leg.aircraft, leg.bookingClass)
  }

  /** One pass of `_convert_amadeus_to_app_format`'s loop: the flight made
      from one offer for the route `origin` to `destination`. */
  function ConvertOffer(o: Offer, origin: string, destination: string): (r: Attempt<Flight>)
    ensures r.Done? ==>
      && o.priceTotal.Amount? && o.itineraries.Some? && |o.itineraries.value| > 0
      && r.value.origin == origin && r.value.destination == destination
      && r.value.price == o.priceTotal.value
      && r.value.gowildEligible == GoWildRule(o)
      && (r.value.isRoundTrip <==> |o.itineraries.value| > 1)
      && (r.value.isRoundTrip <==> r.value.returnFlight.Some?)
      && (r.value.isRoundTrip ==>
            && r.value.returnFlight.value.ParsedLeg?
            && r.value.returnFlight.value.leg.origin == destination
            && r.value.returnFlight.value.leg.destination == origin
            && r.value.totalPrice == Some(r.value.price))
  {
    match o.priceTotal
    case NoPrice => Raised(KeyError)
    case BadPrice => Raised(ValueError)
    case Amount(price) =>
      if o.itineraries.None? then Raised(KeyError)
      else
        var its := o.itineraries.value;
        var roundTrip := |its| > 1;
        if |its| == 0 then Raised(IndexError)
        else if FirstSegmentFailure(its[0]).Some? then Raised(FirstSegmentFailure(its[0]).value)
        else if roundTrip && FirstSegmentFailure(its[1]).Some? then Raised(FirstSegmentFailure(its[1]).value)
        else match ParseItinerary(its[0], origin, destination)
          case Raised(f) => Raised(f)
          case Done(outbound) =>
            if roundTrip then
              match ParseItinerary(its[1], destination, origin)
              case Raised(f) => Raised(f)
              case Done(back) => Done(LegFlight(outbound, price, GoWildRule(o), Some(ParsedLeg(back))))
            else Done(LegFlight(outbound, price, GoWildRule(o), None))
  }

  /** The whole conversion: offers that raise `KeyError` or `IndexError`
      are skipped, and a `ValueError` ends it. */
  function ConvertAll(offers: seq<Offer>, origin: string, destination: string): (r: Attempt<seq<Flight>>)
    ensures r.Raised? ==> r.failure == ValueError
    ensures r.Done? ==> |r.value| <= |offers|
    ensures r.Done? ==> forall f :: f in r.value ==> f.origin == origin && f.destination == destination
  {
    if |offers| == 0 then Done([])
    else
      var acc := ConvertAll(offers[..|offers| - 1], origin, destination);
      if acc.Raised? then acc
      else match ConvertOffer(offers[|offers| - 1], origin, destination)
        case Done(f) => Done(acc.value + [f])
        case Raised(ValueError) => Raised(ValueError)
        case Raised(_) => acc
  }

  /** `_convert_amadeus_to_app_format` */
  method ConvertOffers(offers: seq<Offer>, origin: string, destination: string) returns (r: Attempt<seq<Flight>>)
    ensures r == ConvertAll(offers, origin, destination)
  {
    var flights: seq<Flight> := [];
    var i := 0;
    while i < |offers|
      invariant 0 <= i <= |offers|
      invariant ConvertAll(offers[..i], origin, destination) == Done(flights)
    {
      assert offers[..i + 1][..i] == offers[..i];
      match ConvertOffer(offers[i], origin, destination) {
        case Done(flight) =>
          flights := flights + [flight];
        case Raised(failure) =>
          if failure == ValueError {
            ConvertAllStops(offers, i + 1, origin, destination);
            return Raised(ValueError);
          }
      }
      i := i + 1;
    }
    assert offers[..|offers|] == offers;
    r := Done(flights);
  }

  /** A `ValueError` ends the conversion whatever follows. */
  lemma {:induction false} ConvertAllStops(offers: seq<Offer>, k: nat, origin: string, destination: string)
    requires k <= |offers|
    requires ConvertAll(offers[..k], origin, destination).Raised?
    ensures ConvertAll(offers, origin, destination) == ConvertAll(offers[..k], origin, destination)
    decreases |offers| - k
  {
    if k < |offers| {
      assert offers[..k + 1][..k] == offers[..k];
      ConvertAllStops(offers, k + 1, origin, destination);
    } else {
      assert offers[..k] == offers;
    }
  }

  // ---------------------------------------------------------------------
  // search_flights
  // ---------------------------------------------------------------------

  /** One `flight_offers_search.get` call: the route, the departure date
      and the return date when one is sent. */
  datatype RouteQuery = RouteQuery(origin: string, destination: string, departureDate: string, returnDate: Option<string>)

  /** The SDK's answer: offers, or a `ResponseError`. */
  datatype RouteReply = Offers(offers: seq<Offer>) | ResponseError

  datatype Route = Route(origin: string, destination: string)

  /** A call of the route callback: the route name and its flights. */
  datatype RouteBatch = RouteBatch(route: string, flights: seq<Flight>)

  /** What `search_flights` returns, or the exception that escapes it. */
  datatype SearchOutcome = Searched(flights: seq<Flight>, batches: seq<RouteBatch>) | SearchFailed(failure: Failure)

  function RouteName(r: Route): string
  {
    r.origin + "->" + r.destination
  }

  /** The inner loop's routes from one origin, skipping itself. */
  function RowRoutes(origin: string, destinations: seq<string>): seq<Route>
  {
    if |destinations| == 0 then []
    else
      var d := destinations[|destinations| - 1];
      RowRoutes(origin, destinations[..|destinations| - 1]) + (if origin == d then [] else [Route(origin, d)])
  }

  /** The routes of the nested loop, in loop order. */
  function Routes(origins: seq<string>, destinations: seq<string>): seq<Route>
  {
    if |origins| == 0 then []
    else Routes(origins[..|origins| - 1], destinations) + RowRoutes(origins[|origins| - 1], destinations)
  }

  /** The destinations searched: the popular ones for `['ANY']`. */
  function Targets(origins: seq<string>, destinations: seq<string>): seq<string>
  {
    if destinations == ["ANY"] then PopularDestinations(origins) else destinations
  }

  /** The query for a route; `returnDate` is sent only when truthy. */
  function QueryFor(r: Route, departureDate: string, returnDate: Option<string>): RouteQuery
  {
    RouteQuery(r.origin, r.destination, departureDate, if Truthy(returnDate) then returnDate else None)
  }

  /** One pass of the inner loop's body. */
  function Step(acc: SearchOutcome, r: Route, departureDate: string, returnDate: Option<string>,
                query: RouteQuery -> RouteReply): SearchOutcome
  {
    if acc.SearchFailed? then acc
    else match query(QueryFor(r, departureDate, returnDate))
      case ResponseError => acc
      case Offers(offers) =>
        match ConvertAll(offers, r.origin, r.destination)
        case Raised(f) => SearchFailed(f)
        case Done(flights) =>
          Searched(acc.flights + flights,
                   if |flights| > 0 then acc.batches + [RouteBatch(RouteName(r), flights)] else acc.batches)
  }

  function RunRoutes(routes: seq<Route>, departureDate: string, returnDate: Option<string>,
                     query: RouteQuery -> RouteReply): SearchOutcome
  {
    if |routes| == 0 then Searched([], [])
    else Step(RunRoutes(routes[..|routes| - 1], departureDate, returnDate, query), routes[|routes| - 1],
              departureDate, returnDate, query)
  }

  /** What `search_flights` computes. */
  function SearchSpec(origins: seq<string>, destinations: seq<string>, departureDate: string,
                      returnDate: Option<string>, query: RouteQuery -> RouteReply): SearchOutcome
  {
    RunRoutes(Routes(origins, Targets(origins, destinations)), departureDate, returnDate, query)
  }

  lemma {:induction false} RowRoutesAppend(origin: string, a: seq<string>, b: seq<string>)
    ensures RowRoutes(origin, a + b) == RowRoutes(origin, a) + RowRoutes(origin, b)
    decreases |b|
  {
    if |b| > 0 {
      var b' := b[..|b| - 1];
      assert (a + b)[..|a + b| - 1] == a + b';
      RowRoutesAppend(origin, a, b');
    } else {
      assert a + b == a;
    }
  }

  lemma {:induction false} RoutesAppend(a: seq<string>, b: seq<string>, destinations: seq<string>)
    ensures Routes(a + b, destinations) == Routes(a, destinations) + Routes(b, destinations)
    decreases |b|
  {
    if |b| > 0 {
      var b' := b[..|b| - 1];
      assert (a + b)[..|a + b| - 1] == a + b';
      RoutesAppend(a, b', destinations);
    } else {
      assert a + b == a;
    }
  }

  /** A failure ends the search whatever routes follow. */
  lemma {:induction false} RunRoutesStops(a: seq<Route>, b: seq<Route>, departureDate: string, returnDate: Option<string>,
                                          query: RouteQuery -> RouteReply)
    requires RunRoutes(a, departureDate, returnDate, query).SearchFailed?
    ensures RunRoutes(a + b, departureDate, returnDate, query) == RunRoutes(a, departureDate, returnDate, query)
    decreases |b|
  {
    if |b| > 0 {
      var b' := b[..|b| - 1];
      assert (a + b)[..|a + b| - 1] == a + b';
      RunRoutesStops(a, b', departureDate, returnDate, query);
    } else {
      assert a + b == a;
    }
  }

  /** A failure on the route loop's `j`th destination ends the row. */
  lemma RowStops(done: seq<Route>, origin: string, targets: seq<string>, j: nat, departureDate: string,
                 returnDate: Option<string>, query: RouteQuery -> RouteReply)
    requires j < |targets|
    requires RunRoutes(done + RowRoutes(origin, targets[..j + 1]), departureDate, returnDate, query).SearchFailed?
    ensures RunRoutes(done + RowRoutes(origin, targets), departureDate, returnDate, query)
      == RunRoutes(done + RowRoutes(origin, targets[..j + 1]), departureDate, returnDate, query)
  {
    var first := RowRoutes(origin, targets[..j + 1]);
    var later := RowRoutes(origin, targets[j + 1..]);
    RowSplit(done, origin, targets, j + 1);
    RunRoutesStops(done + first, later, departureDate, returnDate, query);
  }

  /** The routes of a row are those of its first `k` destinations followed
      by those of the rest. */
  lemma RowSplit(done: seq<Route>, origin: string, targets: seq<string>, k: nat)
    requires k <= |targets|
    ensures done + RowRoutes(origin, targets)
      == (done + RowRoutes(origin, targets[..k])) + RowRoutes(origin, targets[k..])
  {
    assert targets == targets[..k] + targets[k..];
    RowRoutesAppend(origin, targets[..k], targets[k..]);
  }

  /** The routes after one more destination. */
  lemma RowStep(done: seq<Route>, origin: string, targets: seq<string>, j: nat)
    requires j < |targets|
    ensures done + RowRoutes(origin, targets[..j + 1])
      == done + RowRoutes(origin, targets[..j]) + (if origin == targets[j] then [] else [Route(origin, targets[j])])
  {
    assert targets[..j + 1][..j] == targets[..j];
  }

  /** The body of the inner loop for a route whose ends differ: query it,
      convert the offers, and add them and the callback's batch. */
  method SearchRoute(route: Route, departureDate: string, returnDate: Option<string>,
                     query: RouteQuery -> RouteReply, ghost sofar: seq<Route>,
                     allFlights: seq<Flight>, batches: seq<RouteBatch>)
    returns (r: SearchOutcome)
    requires RunRoutes(sofar, departureDate, returnDate, query) == Searched(allFlights, batches)
    ensures r == RunRoutes(sofar + [route], departureDate, returnDate, query)
  {
    assert (sofar + [route])[..|sofar|] == sofar;
    var reply := query(QueryFor(route, departureDate, returnDate));
    if reply.ResponseError? {
      return Searched(allFlights, batches);
    }
    var flights := ConvertOffers(reply.offers, route.origin, route.destination);
    if flights.Raised? {
      return SearchFailed(flights.failure);
    }
    if |flights.value| > 0 {
      r := Searched(allFlights + flights.value,
                    batches + [RouteBatch(route.origin + "->" + route.destination, flights.value)]);
    } else {
      r := Searched(allFlights + flights.value, batches);
    }
  }

  /** The inner loop for one origin, after the routes `done`. */
  method SearchFrom(origin: string, targets: seq<string>, departureDate: string, returnDate: Option<string>,
                    query: RouteQuery -> RouteReply, ghost done: seq<Route>,
                    flights0: seq<Flight>, batches0: seq<RouteBatch>)
    returns (r: SearchOutcome)
    requires RunRoutes(done, departureDate, returnDate, query) == Searched(flights0, batches0)
    ensures r == RunRoutes(done + RowRoutes(origin, targets), departureDate, returnDate, query)
  {
    var allFlights, batches := flights0, batches0;
    var j := 0;
    assert done + RowRoutes(origin, targets[..0]) == done;
    while j < |targets|
      invariant 0 <= j <= |targets|
      invariant RunRoutes(done + RowRoutes(origin, targets[..j]), departureDate, returnDate, query)
        == Searched(allFlights, batches)
    {
      var destination := targets[j];
      ghost var sofar := done + RowRoutes(origin, targets[..j]);
      RowStep(done, origin, targets, j);
      if origin != destination {
        var step := SearchRoute(Route(origin, destination), departureDate, returnDate, query, sofar, allFlights, batches);
        if step.SearchFailed? {
          RowStops(done, origin, targets, j, departureDate, returnDate, query);
          return step;
        }
        allFlights, batches := step.flights, step.batches;
      } else {
        assert sofar + [] == sofar;
      }
      j := j + 1;
    }
    assert targets[..|targets|] == targets;
    r := Searched(allFlights, batches);
  }

  /** `search_flights`: replace `['ANY']` by the popular destinations,
      query every route whose ends differ, keep the converted flights in
      order and report each route that found some. */
  method SearchFlights(origins: seq<string>, destinations: seq<string>, departureDate: string,
                       returnDate: Option<string>, query: RouteQuery -> RouteReply)
    returns (r: SearchOutcome)
    ensures r == SearchSpec(origins, destinations, departureDate, returnDate, query)
  {
    var targets := destinations;
    if destinations == ["ANY"] {
      targets := PopularDestinations(origins);
    }
    var allFlights: seq<Flight> := [];
    var batches: seq<RouteBatch> := [];
    var i := 0;
    while i < |origins|
      invariant 0 <= i <= |origins|
      invariant RunRoutes(Routes(origins[..i], targets), departureDate, returnDate, query) == Searched(allFlights, batches)
    {
      var row := SearchFrom(origins[i], targets, departureDate, returnDate, query,
                            Routes(origins[..i], targets), allFlights, batches);
      OriginStep(origins, i, targets);
      assert RunRoutes(Routes(origins[..i + 1], targets), departureDate, returnDate, query) == row;
      if row.SearchFailed? {
        RunRoutesStops(Routes(origins[..i + 1], targets), Routes(origins[i + 1..], targets),
                       departureDate, returnDate, query);
        return row;
      }
      allFlights, batches := row.flights, row.batches;
      assert Searched(allFlights, batches) == row;
      i := i + 1;
    }
    assert origins[..|origins|] == origins;
    r := Searched(allFlights, batches);
  }

  /** The routes after one more origin, and all routes split after it. */
  lemma OriginStep(origins: seq<string>, i: nat, targets: seq<string>)
    requires i < |origins|
    ensures Routes(origins[..i + 1], targets) == Routes(origins[..i], targets) + RowRoutes(origins[i], targets)
    ensures Routes(origins, targets) == Routes(origins[..i + 1], targets) + Routes(origins[i + 1..], targets)
  {
    assert origins[..i + 1][..i] == origins[..i];
    assert origins == origins[..i + 1] + origins[i + 1..];
    RoutesAppend(origins[..i + 1], origins[i + 1..], targets);
  }

  // ---------------------------------------------------------------------
  // Facts about the search
  // ---------------------------------------------------------------------

  /** A route is searched iff its origin is an origin, its destination a
      destination, and the two differ. */
  lemma {:induction false} RouteMembership(origins: seq<string>, destinations: seq<string>, r: Route)
    ensures r in Routes(origins, destinations)
      <==> r.origin in origins && r.destination in destinations && r.origin != r.destination
  {
    if |origins| > 0 {
      var init := origins[..|origins| - 1];
      RouteMembership(init, destinations, r);
      RowMembership(origins[|origins| - 1], destinations, r);
      assert origins == init + [origins[|origins| - 1]];
    }
  }

  lemma {:induction false} RowMembership(origin: string, destinations: seq<string>, r: Route)
    ensures r in RowRoutes(origin, destinations)
      <==> r.origin == origin && r.destination in destinations && r.origin != r.destination
  {
    if |destinations| > 0 {
      var init := destinations[..|destinations| - 1];
      RowMembership(origin, init, r);
      assert destinations == init + [destinations[|destinations| - 1]];
    }
  }

  /** The flights of all batches. */
  function BatchFlights(batches: seq<RouteBatch>): seq<seq<Flight>>
  {
    seq(|batches|, i requires 0 <= i < |batches| => batches[i].flights)
  }

  /** The result lists exactly the flights the callback was given, in the
      same order, and the callback never gets an empty list. */
  lemma {:induction false} BatchesCoverFlights(routes: seq<Route>, departureDate: string, returnDate: Option<string>,
                                               query: RouteQuery -> RouteReply)
    ensures var r := RunRoutes(routes, departureDate, returnDate, query);
      r.Searched? ==> r.flights == Flatten(BatchFlights(r.batches))
                      && forall b :: b in r.batches ==> |b.flights| > 0
  {
    if |routes| > 0 {
      var init := routes[..|routes| - 1];
      BatchesCoverFlights(init, departureDate, returnDate, query);
      var acc := RunRoutes(init, departureDate, returnDate, query);
      var r := RunRoutes(routes, departureDate, returnDate, query);
      if acc.Searched? && r.Searched? && r.batches != acc.batches {
        var b := r.batches[|r.batches| - 1];
        assert r.batches == acc.batches + [b];
        assert BatchFlights(r.batches) == BatchFlights(acc.batches) + [b.flights];
        FlattenAppend(BatchFlights(acc.batches), b.flights);
      }
    }
  }

  /** No query has the same origin and destination, and an `['ANY']`
      search never flies to one of its origins. */
  lemma QueriedRoutes(origins: seq<string>, destinations: seq<string>, r: Route)
    requires r in Routes(origins, Targets(origins, destinations))
    ensures r.origin != r.destination
    ensures destinations == ["ANY"] ==> r.destination in Popular && r.destination !in origins
  {
    RouteMembership(origins, Targets(origins, destinations), r);
  }
}
