/** GoWild pass blackout calendar: two fixed tables of inclusive date
    intervals (2025 and 2026) and the queries the backend runs over them. */
module GoWildBlackout {
  import opened Common
  import opened Calendar

  /** One blackout interval; both ends belong to it. */
  datatype Period = Period(start: Date, end: Date, description: string)

  /** What `get_blackout_periods_in_range` reports for a period. */
  datatype PeriodView = PeriodView(start: string, end: string, description: string)

  /** The summary `is_flight_affected_by_blackout` fills in field by field. */
  datatype BlackoutInfo = BlackoutInfo(
    hasBlackout: bool,
    departureBlackout: bool,
    returnBlackout: bool,
    departureReason: Option<string>,
    returnReason: Option<string>,
    message: Option<string>)

  const Periods2025: seq<Period> := [
    Period(Date(2025, 1, 1), Date(2025, 1, 2), "New Year's Day"),
    Period(Date(2025, 1, 17), Date(2025, 1, 20), "MLK Weekend"),
    Period(Date(2025, 2, 14), Date(2025, 2, 17), "Presidents Day Weekend"),
    Period(Date(2025, 3, 7), Date(2025, 3, 23), "Spring Break Peak"),
    Period(Date(2025, 4, 17), Date(2025, 4, 21), "Easter Weekend"),
    Period(Date(2025, 5, 23), Date(2025, 5, 26), "Memorial Day Weekend"),
    Period(Date(2025, 6, 20), Date(2025, 8, 17), "Summer Peak Season"),
    Period(Date(2025, 8, 29), Date(2025, 9, 1), "Labor Day Weekend"),
    Period(Date(2025, 11, 22), Date(2025, 11, 30), "Thanksgiving Week"),
    Period(Date(2025, 12, 19), Date(2026, 1, 4), "Christmas & New Year's")
  ]

  const Periods2026: seq<Period> := [
    Period(Date(2026, 1, 16), Date(2026, 1, 19), "MLK Weekend"),
    Period(Date(2026, 2, 13), Date(2026, 2, 16), "Presidents Day Weekend"),
    Period(Date(2026, 3, 6), Date(2026, 3, 22), "Spring Break Peak"),
    Period(Date(2026, 4, 3), Date(2026, 4, 6), "Easter Weekend"),
    Period(Date(2026, 5, 22), Date(2026, 5, 25), "Memorial Day Weekend"),
    Period(Date(2026, 6, 19), Date(2026, 8, 16), "Summer Peak Season"),
    Period(Date(2026, 8, 28), Date(2026, 8, 31), "Labor Day Weekend"),
    Period(Date(2026, 11, 21), Date(2026, 11, 29), "Thanksgiving Week"),
    Period(Date(2026, 12, 18), Date(2027, 1, 3), "Christmas & New Year's")
  ]

  /** The combined table, 2025 first, in source order. */
  function AllPeriods(): seq<Period> {
    Periods2025 + Periods2026
  }

  predicate WellFormed(p: Period) {
    ValidDate(p.start) && ValidDate(p.end) && AtOrBefore(p.start, p.end)
      && 1 <= p.start.year && 1 <= p.end.year
  }

  /** The table has 19 well-formed periods, 10 of them from 2025. */
  lemma TableShape()
    ensures |Periods2025| == 10 && |Periods2026| == 9 && |AllPeriods()| == 19
    ensures forall i :: 0 <= i < |AllPeriods()| ==> WellFormed(AllPeriods()[i])
  {
  }

  /** `get_all_blackout_periods`: the append loop over both tables. */
  method GetAllBlackoutPeriods() returns (all: seq<Period>)
    ensures all == AllPeriods()
  {
    var table := Periods2025 + Periods2026;
    all := [];
    var i := 0;
    while i < |table|
      invariant 0 <= i <= |table|
      invariant all == table[..i]
    {
      all := all + [table[i]];
      i := i + 1;
    }
  }

  /** `start_date <= check_date <= end_date` */
  predicate Covers(p: Period, d: Date) {
    AtOrBefore(p.start, d) && AtOrBefore(d, p.end)
  }

  /** The description of the first period in `periods` covering `d`. */
  function FirstMatch(periods: seq<Period>, d: Date): Option<string>
  {
    if |periods| == 0 then None
    else if Covers(periods[0], d) then Some(periods[0].description)
    else FirstMatch(periods[1..], d)
  }

  /** First-match lookup: a reason exists iff some period covers `d`, and it
      is the description of the earliest covering period in table order. */
  lemma {:induction false} FirstMatchIsEarliest(periods: seq<Period>, d: Date)
    ensures FirstMatch(periods, d).Some? <==> exists i :: 0 <= i < |periods| && Covers(periods[i], d)
    ensures FirstMatch(periods, d).Some? ==>
      exists i :: 0 <= i < |periods| && Covers(periods[i], d)
        && (forall j :: 0 <= j < i ==> !Covers(periods[j], d))
        && FirstMatch(periods, d).value == periods[i].description
  {
    if |periods| > 0 && !Covers(periods[0], d) {
      FirstMatchIsEarliest(periods[1..], d);
      if FirstMatch(periods, d).Some? {
        var i :| 0 <= i < |periods[1..]| && Covers(periods[1..][i], d)
          && (forall j :: 0 <= j < i ==> !Covers(periods[1..][j], d))
          && FirstMatch(periods[1..], d).value == periods[1..][i].description;
        assert Covers(periods[i + 1], d);
        forall j | 0 <= j < i + 1 ensures !Covers(periods[j], d) {
          if j > 0 { assert periods[j] == periods[1..][j - 1]; }
        }
      } else {
        forall i | 0 <= i < |periods| ensures !Covers(periods[i], d) {
          if i > 0 { assert periods[i] == periods[1..][i - 1]; }
        }
      }
    }
  }

  /** What `is_blackout_date(s)` answers, as a function of the string. */
  function CheckDate(s: string): (bool, Option<string>)
  {
    match Parse(s)
    case None => (false, None)
    case Some(d) =>
      var reason := FirstMatch(AllPeriods(), d);
      (reason.Some?, reason)
  }

  /** `is_blackout_date`: parse, then the first-match loop with early return. */
  method IsBlackoutDate(s: string) returns (isBlackout: bool, reason: Option<string>)
    ensures (isBlackout, reason) == CheckDate(s)
    ensures !isBlackout <==> reason.None?
  {
    var parsed := Parse(s);
    if parsed.None? {
      return false, None;
    }
    var d := parsed.value;
    var periods := GetAllBlackoutPeriods();
    var i := 0;
    while i < |periods|
      invariant 0 <= i <= |periods|
      invariant FirstMatch(periods[i..], d) == FirstMatch(periods, d)
    {
      assert periods[i..][1..] == periods[i + 1..];
      if Covers(periods[i], d) {
        return true, Some(periods[i].description);
      }
      i := i + 1;
    }
    return false, None;
  }

  /** An unparseable date is never a blackout date. */
  lemma UnparseableIsNotBlackout(s: string)
    requires Parse(s).None?
    ensures CheckDate(s) == (false, None)
  {
  }

  /** `is_flight_affected_by_blackout`: check the departure, then the return
      date when one is given, then compose the message. */
  method IsFlightAffectedByBlackout(departure: string, returnDate: Option<string>) returns (r: BlackoutInfo)
    ensures r.departureBlackout == CheckDate(departure).0
    ensures r.departureReason == CheckDate(departure).1
    ensures r.returnBlackout == (Truthy(returnDate) && CheckDate(returnDate.value).0)
    ensures r.returnReason == (if Truthy(returnDate) then CheckDate(returnDate.value).1 else None)
    ensures !Truthy(returnDate) ==> !r.returnBlackout && r.returnReason.None?
    ensures r.hasBlackout == (r.departureBlackout || r.returnBlackout)
    ensures r.departureBlackout && r.returnBlackout ==>
      r.message == Some("GoWild blackout: " + r.departureReason.value + " (departure) and "
                        + r.returnReason.value + " (return)")
    ensures r.departureBlackout && !r.returnBlackout ==>
      r.message == Some("GoWild blackout: " + r.departureReason.value)
    ensures !r.departureBlackout && r.returnBlackout ==>
      r.message == Some("GoWild blackout: " + r.returnReason.value)
    ensures !r.hasBlackout ==> r.message.None?
  {
    r := BlackoutInfo(false, false, false, None, None, None);

    var isBlackout, reason := IsBlackoutDate(departure);
    if isBlackout {
      r := r.(hasBlackout := true, departureBlackout := true, departureReason := reason);
    }

    if Truthy(returnDate) {
      isBlackout, reason := IsBlackoutDate(returnDate.value);
      if isBlackout {
        r := r.(hasBlackout := true, returnBlackout := true, returnReason := reason);
      }
    }

    if r.departureBlackout && r.returnBlackout {
      r := r.(message := Some("GoWild blackout: " + r.departureReason.value + " (departure) and "
                              + r.returnReason.value + " (return)"));
    } else if r.departureBlackout {
      r := r.(message := Some("GoWild blackout: " + r.departureReason.value));
    } else if r.returnBlackout {
      r := r.(message := Some("GoWild blackout: " + r.returnReason.value));
    }
  }

  // ---------------------------------------------------------------------
  // get_next_available_date
  // ---------------------------------------------------------------------

  /** How many days ahead `get_next_available_date` looks. */
  const SearchDays: nat := 90

  /** Whether `is_blackout_date` rejects the rendered form of `d`, which is
      what the search loop asks of each candidate day. */
  predicate BlackedOut(d: Date)
  {
    d.year >= 0 && 1 <= d.month && 1 <= d.day && CheckDate(Format(d)).0
  }

  /** How the search ends: on a free day, with every day looked at
      blacked out, or with Python's `OverflowError`, which `current +=
      timedelta(days=1)` raises past 9999-12-31 and the function does not
      catch. */
  datatype Search = Found(date: Date) | Exhausted | Overflow

  /** The last year `datetime` represents. */
  const MaxYear: int := 9999

  /** The search as a function: step `cur` forward one day at a time, at
      most `left` times, and stop at the first day that `blocked` does not
      reject (the loop uses `BlackedOut`), or when the step leaves the
      years `datetime` represents. */
  function NextAvailableFrom(cur: Date, left: nat, blocked: Date -> bool): (r: Search)
    requires ValidDate(cur)
    ensures r.Found? ==> ValidDate(r.date) && cur.year <= r.date.year <= MaxYear
    decreases left
  {
    if left == 0 then Exhausted
    else
      var next := NextDay(cur);
      if next.year > MaxYear then Overflow
      else if !blocked(next) then Found(next)
      else NextAvailableFrom(next, left - 1, blocked)
  }

  /** What a call of `get_next_available_date` does: return a date or
      `None`, or raise `OverflowError`. */
  datatype NextResult = Returned(value: Option<string>) | OverflowRaised

  /** `get_next_available_date(s)` as a function of the input string. */
  function NextAvailable(s: string): NextResult
  {
    match Parse(s)
    case None => Returned(None)
    case Some(start) =>
      match NextAvailableFrom(start, SearchDays, BlackedOut)
      case Found(d) => Returned(Some(Format(d)))
      case Exhausted => Returned(None)
      case Overflow => OverflowRaised
  }

  /** `get_next_available_date`: advance `current` a day at a time for at
      most 90 days, returning the first date that is not blacked out. */
  method GetNextAvailableDate(s: string) returns (r: NextResult)
    ensures r == NextAvailable(s)
  {
    var parsed := Parse(s);
    if parsed.None? {
      return Returned(None);
    }
    var current := parsed.value;
    var i := 0;
    while i < SearchDays
      invariant 0 <= i <= SearchDays
      invariant ValidDate(current) && 1 <= current.year <= MaxYear
      invariant NextAvailableFrom(current, SearchDays - i, BlackedOut) == NextAvailableFrom(parsed.value, SearchDays, BlackedOut)
    {
      if NextDay(current).year > MaxYear {
        return OverflowRaised;
      }
      SearchStep(current, SearchDays - i);
      current := NextDay(current);
      var dateStr := Format(current);
      var isBlackout, _ := IsBlackoutDate(dateStr);
      if !isBlackout {
        return Returned(Some(dateStr));
      }
      i := i + 1;
    }
    return Returned(None);
  }

  /** One turn of the search loop that does not overflow. */
  lemma SearchStep(cur: Date, left: nat)
    requires ValidDate(cur) && cur.year >= 1 && left > 0 && NextDay(cur).year <= MaxYear
    ensures var next := NextDay(cur);
      && ValidDate(next) && 1 <= next.year <= MaxYear
      && BlackedOut(next) == CheckDate(Format(next)).0
      && NextAvailableFrom(cur, left, BlackedOut)
           == if !BlackedOut(next) then Found(next) else NextAvailableFrom(next, left - 1, BlackedOut)
  {
    NextDayIsSuccessor(cur, cur);
  }

  /** When the search finds a day, it is the first day after `cur`, at most
      `left` days on, that is not blacked out: every day it skipped is, and
      none of them lies past 9999-12-31. */
  lemma {:induction false} NextAvailableFound(cur: Date, left: nat, blocked: Date -> bool) returns (k: nat)
    requires ValidDate(cur)
    requires NextAvailableFrom(cur, left, blocked).Found?
    ensures 1 <= k <= left && NextAvailableFrom(cur, left, blocked).date == AddDays(cur, k)
    ensures !blocked(AddDays(cur, k)) && AddDays(cur, k).year <= MaxYear
    ensures forall j :: 1 <= j < k ==> blocked(AddDays(cur, j)) && AddDays(cur, j).year <= MaxYear
    decreases left
  {
    var next := NextDay(cur);
    assert next == AddDays(cur, 1);
    if !blocked(next) {
      k := 1;
    } else {
      var k' := NextAvailableFound(next, left - 1, blocked);
      k := k' + 1;
      ShiftStart(cur, k');
      forall j | 1 <= j < k ensures blocked(AddDays(cur, j)) && AddDays(cur, j).year <= MaxYear {
        if j > 1 { ShiftStart(cur, j - 1); }
      }
    }
  }

  /** When the search finds nothing, all `left` days after `cur` are
      blacked out, and none of them lies past 9999-12-31. */
  lemma {:induction false} NextAvailableExhausted(cur: Date, left: nat, blocked: Date -> bool)
    requires ValidDate(cur)
    requires NextAvailableFrom(cur, left, blocked).Exhausted?
    ensures forall j :: 1 <= j <= left ==> blocked(AddDays(cur, j)) && AddDays(cur, j).year <= MaxYear
    decreases left
  {
    if left > 0 {
      var next := NextDay(cur);
      assert next == AddDays(cur, 1);
      NextAvailableExhausted(next, left - 1, blocked);
      forall j | 1 <= j <= left ensures blocked(AddDays(cur, j)) && AddDays(cur, j).year <= MaxYear {
        if j > 1 { ShiftStart(cur, j - 1); }
      }
    }
  }

  /** The search raises exactly when it steps past 9999-12-31 before it
      finds a free day: the `k`-th step does, within `left` steps, and every
      day before it is blacked out and representable. */
  lemma {:induction false} NextAvailableOverflows(cur: Date, left: nat, blocked: Date -> bool) returns (k: nat)
    requires ValidDate(cur)
    requires NextAvailableFrom(cur, left, blocked).Overflow?
    ensures 1 <= k <= left && AddDays(cur, k).year > MaxYear
    ensures forall j :: 1 <= j < k ==> blocked(AddDays(cur, j)) && AddDays(cur, j).year <= MaxYear
    decreases left
  {
    var next := NextDay(cur);
    assert next == AddDays(cur, 1);
    if next.year > MaxYear {
      k := 1;
    } else {
      var k' := NextAvailableOverflows(next, left - 1, blocked);
      k := k' + 1;
      ShiftStart(cur, k');
      forall j | 1 <= j < k ensures blocked(AddDays(cur, j)) && AddDays(cur, j).year <= MaxYear {
        if j > 1 { ShiftStart(cur, j - 1); }
      }
    }
  }

  /** `(d + 1 day) + n days == d + (n + 1) days` */
  lemma {:induction false} ShiftStart(d: Date, n: nat)
    requires ValidDate(d)
    ensures AddDays(NextDay(d), n) == AddDays(d, n + 1)
  {
    if n > 0 {
      ShiftStart(d, n - 1);
    }
  }

  /** The date found lies strictly after the start and at most 90 days later. */
  lemma NextAvailableIsLater(start: Date)
    requires ValidDate(start) && start.year >= 1
    requires NextAvailableFrom(start, SearchDays, BlackedOut).Found?
    ensures Before(start, NextAvailableFrom(start, SearchDays, BlackedOut).date)
    ensures exists k :: 1 <= k <= SearchDays && NextAvailableFrom(start, SearchDays, BlackedOut).date == AddDays(start, k)
  {
    var k := NextAvailableFound(start, SearchDays, BlackedOut);
    AddDaysForward(start, k);
  }

  /** An unparseable start yields no date. */
  lemma NextAvailableOfUnparseable(s: string)
    requires Parse(s).None?
    ensures NextAvailable(s) == Returned(None)
  {
  }

  // ---------------------------------------------------------------------
  // get_blackout_periods_in_range
  // ---------------------------------------------------------------------

  /** `blackout_start <= range_end and blackout_end >= range_start` */
  predicate Overlaps(p: Period, from: Date, to: Date) {
    AtOrBefore(p.start, to) && AtOrBefore(from, p.end)
  }

  /** The periods overlapping [from, to], in table order. */
  function Overlapping(periods: seq<Period>, from: Date, to: Date): seq<Period>
  {
    if |periods| == 0 then []
    else if Overlaps(periods[0], from, to) then [periods[0]] + Overlapping(periods[1..], from, to)
    else Overlapping(periods[1..], from, to)
  }

  function View(p: Period): PeriodView
    requires WellFormed(p)
  {
    PeriodView(Format(p.start), Format(p.end), p.description)
  }

  /** A period is reported iff it is in the table and overlaps the range. */
  lemma {:induction false} OverlappingMembers(periods: seq<Period>, from: Date, to: Date, p: Period)
    ensures p in Overlapping(periods, from, to) <==> p in periods && Overlaps(p, from, to)
  {
    if |periods| > 0 {
      OverlappingMembers(periods[1..], from, to, p);
      assert periods == [periods[0]] + periods[1..];
    }
  }

  /** Every reported period is an overlapping entry of `periods`. */
  lemma {:induction false} OverlappingSubset(periods: seq<Period>, from: Date, to: Date)
    ensures |Overlapping(periods, from, to)| <= |periods|
    ensures forall i :: 0 <= i < |Overlapping(periods, from, to)| ==>
      Overlapping(periods, from, to)[i] in periods
  {
    if |periods| > 0 {
      OverlappingSubset(periods[1..], from, to);
    }
  }

  /** `get_blackout_periods_in_range`: `[]` when either bound does not
      parse; otherwise the overlapping periods, rendered, in table order. */
  method GetBlackoutPeriodsInRange(startDate: string, endDate: string) returns (r: seq<PeriodView>)
    ensures Parse(startDate).None? || Parse(endDate).None? ==> r == []
    ensures Parse(startDate).Some? && Parse(endDate).Some? ==>
      var hits := Overlapping(AllPeriods(), Parse(startDate).value, Parse(endDate).value);
      |r| == |hits| && forall i :: 0 <= i < |r| ==> WellFormed(hits[i]) && r[i] == View(hits[i])
  {
    var rangeStart, rangeEnd := Parse(startDate), Parse(endDate);
    if rangeStart.None? || rangeEnd.None? {
      return [];
    }
    var from, to := rangeStart.value, rangeEnd.value;
    var periods := GetAllBlackoutPeriods();
    TableShape();
    r := [];
    var i := 0;
    while i < |periods|
      invariant 0 <= i <= |periods|
      invariant Rendered(r, Overlapping(periods[..i], from, to))
    {
      var p := periods[i];
      assert WellFormed(p);
      PrefixStep(periods, i, from, to);
      if Overlaps(p, from, to) {
        RenderedStep(r, Overlapping(periods[..i], from, to), p);
        r := r + [View(p)];
      }
      i := i + 1;
    }
    assert periods[..i] == periods;
  }

  /** `r` lists the periods `hits`, each rendered. */
  predicate Rendered(r: seq<PeriodView>, hits: seq<Period>)
  {
    |r| == |hits| && forall k :: 0 <= k < |r| ==> WellFormed(hits[k]) && r[k] == View(hits[k])
  }

  lemma RenderedStep(r: seq<PeriodView>, hits: seq<Period>, p: Period)
    requires Rendered(r, hits) && WellFormed(p)
    ensures Rendered(r + [View(p)], hits + [p])
  {
    var r', hits' := r + [View(p)], hits + [p];
    forall k | 0 <= k < |r'|
      ensures WellFormed(hits'[k]) && r'[k] == View(hits'[k])
    {
      if k < |r| {
        assert r'[k] == r[k] && hits'[k] == hits[k];
      }
    }
  }

  /** Extending the scanned prefix by one period extends the hits by that
      period exactly when it overlaps. */
  lemma {:induction false} PrefixStep(periods: seq<Period>, i: nat, from: Date, to: Date)
    requires i < |periods|
    ensures Overlapping(periods[..i + 1], from, to)
      == Overlapping(periods[..i], from, to) + (if Overlaps(periods[i], from, to) then [periods[i]] else [])
  {
    assert periods[..i + 1] == periods[..i] + [periods[i]];
    OverlappingAppend(periods[..i], periods[i], from, to);
  }

  lemma {:induction false} OverlappingAppend(ps: seq<Period>, p: Period, from: Date, to: Date)
    ensures Overlapping(ps + [p], from, to)
      == Overlapping(ps, from, to) + (if Overlaps(p, from, to) then [p] else [])
  {
    if |ps| > 0 {
      assert (ps + [p])[1..] == ps[1..] + [p];
      OverlappingAppend(ps[1..], p, from, to);
    } else {
      assert ps + [p] == [p];
    }
  }
}

module GoWildBlackoutExamples {
  import opened Common
  import opened Calendar
  import opened GoWildBlackout

  /** For a date Python can represent, the search's test is the table lookup. */
  lemma BlackedOutByTable(d: Date)
    requires ValidDate(d) && 1 <= d.year <= 9999
    ensures BlackedOut(d) == FirstMatch(AllPeriods(), d).Some?
  {
    ParseFormat(d);
  }

  /** strftime renders the two dates of the example below. */
  lemma RenderedSamples()
    ensures Format(Date(2025, 12, 25)) == "2025-12-25"
    ensures Format(Date(2026, 1, 5)) == "2026-01-05"
  {
    YearsRendered();
    DaysRendered();
  }

  lemma YearsRendered()
    ensures PadNat(2025, 4) == "2025" && PadNat(2026, 4) == "2026"
  {
    assert NatToString(20) == "20";
    assert NatToString(202) == "202";
  }

  lemma DaysRendered()
    ensures PadNat(12, 2) == "12" && PadNat(25, 2) == "25"
    ensures PadNat(1, 2) == "01" && PadNat(5, 2) == "05"
  {
  }

  /** Searching from a rendered date searches from that date. */
  lemma SearchFromRendered(d: Date)
    requires ValidDate(d) && 1 <= d.year <= 9999
    ensures NextAvailable(Format(d)) == match NextAvailableFrom(d, SearchDays, BlackedOut)
      case Found(e) => Returned(Some(Format(e)))
      case Exhausted => Returned(None)
      case Overflow => OverflowRaised
  {
    ParseFormat(d);
  }

  /** No period covers 5 January 2026. */
  lemma FifthOfJanuaryIsOpen()
    ensures FirstMatch(AllPeriods(), Date(2026, 1, 5)).None?
  {
    var ps := AllPeriods();
    assert forall i :: 0 <= i < |ps| ==> !Covers(ps[i], Date(2026, 1, 5));
    FirstMatchIsEarliest(ps, Date(2026, 1, 5));
  }

  /** Every day from 19 December 2025 to 4 January 2026 is blacked out. */
  lemma ChristmasBlackedOut(d: Date)
    requires ValidDate(d) && AtOrBefore(Date(2025, 12, 19), d) && AtOrBefore(d, Date(2026, 1, 4))
    ensures BlackedOut(d)
  {
    var ps := AllPeriods();
    BlackedOutByTable(d);
    FirstMatchIsEarliest(ps, d);
    assert Covers(ps[9], d);
  }

  /** Whatever the test, a search from Christmas Day 2025 that finds the
      days up to 4 January 2026 blocked and 5 January free lands on 5 January. */
  lemma ChristmasRun(blocked: Date -> bool)
    requires forall d :: ValidDate(d) && AtOrBefore(Date(2025, 12, 26), d) && AtOrBefore(d, Date(2026, 1, 4)) ==> blocked(d)
    requires !blocked(Date(2026, 1, 5))
    ensures NextAvailableFrom(Date(2025, 12, 25), 90, blocked) == Found(Date(2026, 1, 5))
  {
    ChristmasRunDecember(blocked);
    SkipBlocked(Date(2025, 12, 31), Date(2026, 1, 1), 84, blocked);
    SkipBlocked(Date(2026, 1, 1), Date(2026, 1, 2), 83, blocked);
    SkipBlocked(Date(2026, 1, 2), Date(2026, 1, 3), 82, blocked);
    SkipBlocked(Date(2026, 1, 3), Date(2026, 1, 4), 81, blocked);
    assert NextDay(Date(2026, 1, 4)) == Date(2026, 1, 5);
  }

  /** The December part of the run: the search reaches the last day of 2025. */
  lemma ChristmasRunDecember(blocked: Date -> bool)
    requires forall d :: ValidDate(d) && AtOrBefore(Date(2025, 12, 26), d) && AtOrBefore(d, Date(2026, 1, 4)) ==> blocked(d)
    ensures NextAvailableFrom(Date(2025, 12, 25), 90, blocked) == NextAvailableFrom(Date(2025, 12, 31), 84, blocked)
  {
    SkipBlocked(Date(2025, 12, 25), Date(2025, 12, 26), 90, blocked);
    SkipBlocked(Date(2025, 12, 26), Date(2025, 12, 27), 89, blocked);
    SkipBlocked(Date(2025, 12, 27), Date(2025, 12, 28), 88, blocked);
    SkipBlocked(Date(2025, 12, 28), Date(2025, 12, 29), 87, blocked);
    SkipBlocked(Date(2025, 12, 29), Date(2025, 12, 30), 86, blocked);
    SkipBlocked(Date(2025, 12, 30), Date(2025, 12, 31), 85, blocked);
  }

  /** A blocked, representable next day passes the search on to it. */
  lemma SkipBlocked(cur: Date, next: Date, left: nat, blocked: Date -> bool)
    requires ValidDate(cur) && left > 0 && NextDay(cur) == next && next.year <= MaxYear && blocked(next)
    ensures NextAvailableFrom(cur, left, blocked) == NextAvailableFrom(next, left - 1, blocked)
  {
  }

  lemma ChristmasSearch()
    ensures NextAvailableFrom(Date(2025, 12, 25), SearchDays, BlackedOut) == Found(Date(2026, 1, 5))
  {
    forall d | ValidDate(d) && AtOrBefore(Date(2025, 12, 26), d) && AtOrBefore(d, Date(2026, 1, 4))
      ensures BlackedOut(d)
    {
      ChristmasBlackedOut(d);
    }
    FifthOfJanuaryIsOpen();
    BlackedOutByTable(Date(2026, 1, 5));
    ChristmasRun(BlackedOut);
  }

  /** From Christmas Day 2025 the blackout runs through 4 January 2026, so
      the next available date is 5 January 2026. */
  lemma NextAvailableAfterChristmas()
    ensures NextAvailable("2025-12-25") == Returned(Some("2026-01-05"))
  {
    SearchFromRendered(Date(2025, 12, 25));
    ChristmasSearch();
    RenderedSamples();
  }

  /** The last day `datetime` represents: the search from it raises on its
      first step, whatever the table says. */
  lemma LastDayOverflows()
    ensures NextAvailable("9999-12-31") == OverflowRaised
  {
    var last := Date(9999, 12, 31);
    assert NextDay(last) == Date(10000, 1, 1);
    assert NextAvailableFrom(last, SearchDays, BlackedOut) == Overflow;
    SearchFromRendered(last);
    LastDayRendered();
  }

  lemma LastDayRendered()
    ensures Format(Date(9999, 12, 31)) == "9999-12-31"
  {
    LastYearRendered();
    assert PadNat(12, 2) == "12" && PadNat(31, 2) == "31";
  }

  lemma LastYearRendered()
    ensures PadNat(9999, 4) == "9999"
  {
    assert NatToString(99) == "99";
    assert NatToString(999) == "999";
  }
}
