/** `handleSubmit` of `src/components/SearchForm.js`: the comma lists the
    user typed become airport code lists, and the form's fields become the
    search parameters object, with the optional keys present only in the
    modes that use them. */
module SearchForm {
  import opened Common
  import opened Flights
  import ServerApp

  // ---------------------------------------------------------------------
  // String.prototype.trim
  // ---------------------------------------------------------------------

  /** The characters `trim` removes: ECMAScript WhiteSpace (tab, vertical
      tab, form feed, space, no-break space, byte order mark and the other
      space separators) and LineTerminator. */
  predicate IsSpace(ch: char)
  {
    || ch == '\t' || ch == '\n' || ch == '\U{000B}' || ch == '\U{000C}' || ch == '\r'
    || ch == ' ' || ch == '\U{00A0}' || ch == '\U{1680}'
    || ('\U{2000}' <= ch <= '\U{200A}')
    || ch == '\U{2028}' || ch == '\U{2029}' || ch == '\U{202F}' || ch == '\U{205F}'
    || ch == '\U{3000}' || ch == '\U{FEFF}'
  }

  /** Leading white space removed. */
  function TrimStart(s: string): (r: string)
    ensures |r| <= |s| && r == s[|s| - |r|..]
    ensures |r| == 0 || !IsSpace(r[0])
    ensures forall i :: 0 <= i < |s| - |r| ==> IsSpace(s[i])
  {
    if |s| > 0 && IsSpace(s[0]) then TrimStart(s[1..]) else s
  }

  /** Trailing white space removed. */
  function TrimEnd(s: string): (r: string)
    ensures |r| <= |s| && r == s[..|r|]
    ensures |r| == 0 || !IsSpace(r[|r| - 1])
    ensures forall i :: |r| <= i < |s| ==> IsSpace(s[i])
  {
    if |s| > 0 && IsSpace(s[|s| - 1]) then TrimEnd(s[..|s| - 1]) else s
  }

  /** `s.trim()` */
  function Trim(s: string): string
  {
    TrimEnd(TrimStart(s))
  }

  /** A code as the form submits it: not empty, no comma, and no white
      space at either end. */
  predicate Code(s: string)
  {
    ',' !in s && Trimmed(s)
  }

  predicate Trimmed(s: string)
  {
    |s| > 0 && !IsSpace(s[0]) && !IsSpace(s[|s| - 1])
  }

  /** `trim` keeps a contiguous piece of its input and drops only white
      space around it. */
  lemma TrimmedPiece(s: string)
    ensures exists i, j :: (0 <= i <= j <= |s| && Trim(s) == s[i..j]
      && (forall k :: 0 <= k < i ==> IsSpace(s[k]))
      && (forall k :: j <= k < |s| ==> IsSpace(s[k])))
  {
    var i, j := TrimBounds(s);
  }

  /** Where the piece `trim` keeps starts and ends. */
  lemma TrimBounds(s: string) returns (i: nat, j: nat)
    ensures i <= j <= |s| && Trim(s) == s[i..j]
    ensures forall k :: 0 <= k < i ==> IsSpace(s[k])
    ensures forall k :: j <= k < |s| ==> IsSpace(s[k])
  {
    var t := TrimStart(s);
    i := |s| - |t|;
    var r := TrimEnd(t);
    j := i + |r|;
    assert t == s[i..];
    assert r == t[..|r|];
    forall k | j <= k < |s|
      ensures IsSpace(s[k])
    {
      assert s[k] == t[k - i];
    }
  }

  /** What `trim` returns has no white space at either end, so trimming
      again changes nothing; a string with none is returned as it is. */
  lemma TrimmedEnds(s: string)
    ensures |Trim(s)| > 0 ==> !IsSpace(Trim(s)[0]) && !IsSpace(Trim(s)[|Trim(s)| - 1])
    ensures |Trim(s)| <= |s| && (forall ch :: ch in Trim(s) ==> ch in s)
    ensures |s| > 0 && !IsSpace(s[0]) && !IsSpace(s[|s| - 1]) ==> Trim(s) == s
  {
    var t := TrimStart(s);
    if |Trim(s)| > 0 {
      assert Trim(s)[0] == t[0];
    }
    forall ch | ch in Trim(s)
      ensures ch in s
    {
      var k :| 0 <= k < |Trim(s)| && Trim(s)[k] == ch;
      assert t[k] == ch;
      assert s[|s| - |t| + k] == ch;
    }
  }

  lemma TrimIdempotent(s: string)
    ensures Trim(Trim(s)) == Trim(s)
  {
    TrimmedEnds(s);
    TrimmedEnds(Trim(s));
  }

  // ---------------------------------------------------------------------
  // Comma-separated code lists
  // ---------------------------------------------------------------------

  /** `.map(s => s.trim()).filter(s => s)` over the pieces. */
  function Tidy(pieces: seq<string>): (r: seq<string>)
    requires forall i :: 0 <= i < |pieces| ==> ',' !in pieces[i]
    ensures forall i :: 0 <= i < |r| ==> Code(r[i])
    ensures |r| <= |pieces|
  {
    if |pieces| == 0 then []
    else
      TrimmedEnds(pieces[0]);
      var t := Trim(pieces[0]);
      var head: seq<string> := if t == "" then [] else [t];
      var rest := pieces[1..];
      assert forall i :: 0 <= i < |rest| ==> rest[i] == pieces[i + 1];
      var tail := Tidy(rest);
      CodesAppend(head, tail);
      head + tail
  }

  lemma CodesAppend(a: seq<string>, b: seq<string>)
    requires forall i :: 0 <= i < |a| ==> Code(a[i])
    requires forall i :: 0 <= i < |b| ==> Code(b[i])
    ensures forall i :: 0 <= i < |a + b| ==> Code((a + b)[i])
  {
    forall i | 0 <= i < |a + b|
      ensures Code((a + b)[i])
    {
      if i >= |a| {
        assert (a + b)[i] == b[i - |a|];
      }
    }
  }

  /** `text.split(',').map(s => s.trim()).filter(s => s)` */
  function Codes(text: string): (r: seq<string>)
    ensures forall i :: 0 <= i < |r| ==> Code(r[i])
  {
    SplitJoin(text, ',');
    Tidy(Split(text, ','))
  }

  lemma {:induction false} TidyCodes(codes: seq<string>)
    requires forall i :: 0 <= i < |codes| ==> ',' !in codes[i] && Trimmed(codes[i])
    ensures Tidy(codes) == codes
  {
    if |codes| > 0 {
      var rest := codes[1..];
      assert forall i :: 0 <= i < |rest| ==> rest[i] == codes[i + 1];
      TidyCodes(rest);
      TidyKeeps(codes);
      assert codes == [codes[0]] + rest;
    }
  }

  lemma TidyKeeps(pieces: seq<string>)
    requires |pieces| > 0 && Trimmed(pieces[0])
    requires forall i :: 0 <= i < |pieces| ==> ',' !in pieces[i]
    ensures Tidy(pieces) == [pieces[0]] + Tidy(pieces[1..])
  {
    TrimmedEnds(pieces[0]);
  }

  /** A list of codes written out with commas is read back as the same
      list, in the same order. */
  lemma CodesRoundTrip(codes: seq<string>)
    requires forall i :: 0 <= i < |codes| ==> Code(codes[i])
    ensures Codes(Join(codes, ",")) == codes
  {
    if |codes| == 0 {
      assert Split("", ',') == [""];
    } else {
      JoinSplit(codes, ',');
      TidyCodes(codes);
    }
  }

  /** Reading the list back from what was submitted changes nothing. */
  lemma CodesIdempotent(text: string)
    ensures Codes(Join(Codes(text), ",")) == Codes(text)
  {
    CodesRoundTrip(Codes(text));
  }

  /** A list of codes shown joined by `, ` reads back as the same list:
      the space after each comma is trimmed away. */
  lemma CodesOfListing(ds: seq<string>)
    requires forall i :: 0 <= i < |ds| ==> Code(ds[i])
    ensures Codes(Join(ds, ", ")) == ds
  {
    if |ds| == 0 {
      CodesOfEmpty();
    } else {
      CodesOfLongerListing(ds);
    }
  }

  lemma CodesOfLongerListing(ds: seq<string>)
    requires |ds| > 0
    requires forall i :: 0 <= i < |ds| ==> Code(ds[i])
    ensures Codes(Join(ds, ", ")) == ds
  {
    var pieces := [ds[0]] + SpaceLed(ds[1..]);
    ListingSplit(ds);
    ListingPieces(ds, pieces);
    CodesOfPieces(Join(ds, ", "), pieces);
    TidyTrims(pieces, ds);
  }

  /** The pieces of a `, `-joined list: the first code, then each later
      code with its leading space. */
  lemma ListingSplit(ds: seq<string>)
    requires |ds| > 0
    requires forall i :: 0 <= i < |ds| ==> ',' !in ds[i]
    ensures Split(Join(ds, ", "), ',') == [ds[0]] + SpaceLed(ds[1..])
  {
    if |ds| == 1 {
      assert Join(ds, ", ") == ds[0];
      SplitWithout(ds[0], ',');
      assert SpaceLed(ds[1..]) == [];
    } else {
      var rest := ds[1..];
      var tail := " " + Join(rest, ", ");
      assert Join(ds, ", ") == ds[0] + ", " + Join(rest, ", ");
      CommaSpace(ds[0], Join(rest, ", "));
      SplitAfterPiece(ds[0], ',', tail);
      assert forall i :: 0 <= i < |rest| ==> rest[i] == ds[i + 1];
      SplitSpacedJoin(" ", rest);
      SpaceLedCons(rest);
    }
  }

  /** An empty field holds no codes. */
  lemma CodesOfEmpty()
    ensures Codes("") == []
  {
    var pieces: seq<string> := [""];
    assert Split("", ',') == pieces;
    CodesOfPieces("", pieces);
    assert TrimStart(pieces[0]) == "";
    assert Trim(pieces[0]) == "";
    assert Tidy(pieces[1..]) == [];
  }

  /** `Codes` of a text whose pieces are known. */
  lemma CodesOfPieces(text: string, pieces: seq<string>)
    requires Split(text, ',') == pieces
    requires forall i :: 0 <= i < |pieces| ==> ',' !in pieces[i]
    ensures Codes(text) == Tidy(pieces)
  {
  }

  lemma ListingPieces(ds: seq<string>, pieces: seq<string>)
    requires |ds| > 0 && pieces == [ds[0]] + SpaceLed(ds[1..])
    requires forall i :: 0 <= i < |ds| ==> Code(ds[i])
    ensures |pieces| == |ds|
    ensures forall i :: 0 <= i < |pieces| ==> ',' !in pieces[i] && Trim(pieces[i]) == ds[i] && ds[i] != ""
  {
    forall i | 0 <= i < |pieces|
      ensures ',' !in pieces[i] && Trim(pieces[i]) == ds[i] && ds[i] != ""
    {
      if i == 0 {
        TrimmedEnds(ds[0]);
      } else {
        assert pieces[i] == " " + ds[i];
        SpaceTrim(ds[i]);
      }
    }
  }

  /** Each code after the first, with the space that follows its comma. */
  function SpaceLed(ds: seq<string>): (r: seq<string>)
    ensures |r| == |ds|
  {
    seq(|ds|, i requires 0 <= i < |ds| => " " + ds[i])
  }

  lemma SpaceLedCons(ds: seq<string>)
    requires |ds| > 0
    ensures SpaceLed(ds) == [" " + ds[0]] + SpaceLed(ds[1..])
  {
    var a, b := SpaceLed(ds), [" " + ds[0]] + SpaceLed(ds[1..]);
    forall i | 0 <= i < |a|
      ensures a[i] == b[i]
    {
      if i > 0 {
        assert b[i] == SpaceLed(ds[1..])[i - 1];
      }
    }
  }

  /** Splitting `p` followed by a `, `-joined list at commas. */
  lemma {:induction false} SplitSpacedJoin(p: string, ds: seq<string>)
    requires |ds| >= 1 && ',' !in p
    requires forall i :: 0 <= i < |ds| ==> ',' !in ds[i]
    ensures Split(p + Join(ds, ", "), ',') == [p + ds[0]] + SpaceLed(ds[1..])
    decreases |ds|
  {
    if |ds| == 1 {
      SplitWithout(p + ds[0], ',');
    } else {
      var rest := ds[1..];
      var tail := " " + Join(rest, ", ");
      assert Join(ds, ", ") == ds[0] + ", " + Join(rest, ", ");
      CommaSpace(ds[0], Join(rest, ", "));
      assert p + Join(ds, ", ") == (p + ds[0]) + [','] + tail;
      SplitAfterPiece(p + ds[0], ',', tail);
      assert forall i :: 0 <= i < |rest| ==> rest[i] == ds[i + 1];
      SplitSpacedJoin(" ", rest);
      SpaceLedCons(rest);
    }
  }

  lemma CommaSpace(a: string, b: string)
    ensures a + ", " + b == a + [','] + (" " + b)
  {
    assert ", " == [','] + " ";
  }

  /** A code with one space before it trims back to the code. */
  lemma SpaceTrim(d: string)
    requires Code(d)
    ensures ',' !in " " + d && Trim(" " + d) == d
  {
    assert (" " + d)[1..] == d;
    assert TrimStart(d) == d;
    TrimmedEnds(d);
  }

  /** `map(trim).filter(s => s)` over pieces that all trim to non-empty text. */
  lemma {:induction false} TidyTrims(pieces: seq<string>, ds: seq<string>)
    requires |pieces| == |ds|
    requires forall i :: 0 <= i < |pieces| ==> ',' !in pieces[i] && Trim(pieces[i]) == ds[i] && ds[i] != ""
    ensures Tidy(pieces) == ds
  {
    if |pieces| > 0 {
      var rest, later := pieces[1..], ds[1..];
      forall i | 0 <= i < |rest|
        ensures ',' !in rest[i] && Trim(rest[i]) == later[i] && later[i] != ""
      {
        assert rest[i] == pieces[i + 1] && later[i] == ds[i + 1];
      }
      TidyTrims(rest, later);
      TidyHead(pieces);
      assert ds == [ds[0]] + later;
    }
  }

  /** A first piece that trims to non-empty text is kept, trimmed. */
  lemma TidyHead(pieces: seq<string>)
    requires |pieces| > 0 && Trim(pieces[0]) != ""
    requires forall i :: 0 <= i < |pieces| ==> ',' !in pieces[i]
    ensures Tidy(pieces) == [Trim(pieces[0])] + Tidy(pieces[1..])
  {
  }

  // ---------------------------------------------------------------------
  // The submitted parameters
  // ---------------------------------------------------------------------

  /** The form's state: the text fields as typed and the toggles. */
  datatype Form = Form(
    searchMode: string,
    origins: string,
    destinations: string,
    anyDestination: bool,
    tripType: string,
    departureDate: string,
    returnDate: string,
    tripLength: string,
    tripLengthUnit: string,
    maxTripDuration: string,
    maxTripDurationUnit: string,
    nonstopPreferred: bool)

  /** The state the form starts in. */
  const InitialForm := Form("package", "", "", false, "round-trip", "", "", "", "days", "", "days", false)

  /** `handleSubmit`: the parameters object passed to `onSearch`. */
  function Submit(f: Form): (p: SearchParams)
    ensures p.searchMode == f.searchMode
    ensures p.origins == Codes(f.origins)
    ensures f.anyDestination ==> p.destinations == ["ANY"]
    ensures !f.anyDestination ==> p.destinations == Codes(f.destinations)
    ensures p.departureDate == Some(f.departureDate)
    ensures f.searchMode == "build-your-own" ==> p.tripType == "one-way"
    ensures f.searchMode != "build-your-own" ==> p.tripType == f.tripType
    ensures p.returnDate.None? <==> f.tripType == "one-way" || f.searchMode == "build-your-own"
    ensures p.returnDate.Some? ==> p.returnDate.value == f.returnDate
    ensures p.desiredReturnDate.Some? <==> f.searchMode == "build-your-own" && f.returnDate != ""
    ensures p.desiredReturnDate.Some? ==> p.desiredReturnDate.value == f.returnDate
    ensures p.tripLength.Some? <==> f.tripType == "trip-planner"
    ensures p.tripLength.Some? ==> p.tripLength.value == f.tripLength && p.tripLengthUnit == Some(f.tripLengthUnit)
                                   && p.nonstopPreferred == Some(f.nonstopPreferred)
    ensures p.tripLength.None? ==> p.tripLengthUnit.None? && p.nonstopPreferred.None?
    ensures p.maxTripDuration.Some? <==> f.tripType == "trip-planner" && f.maxTripDuration != ""
    ensures p.maxTripDuration.Some? ==> p.maxTripDuration.value == f.maxTripDuration
                                        && p.maxTripDurationUnit == Some(f.maxTripDurationUnit)
    ensures p.maxTripDuration.None? ==> p.maxTripDurationUnit.None?
  {
    var planner := f.tripType == "trip-planner";
    var withMax := planner && f.maxTripDuration != "";
    SearchParams(
      f.searchMode,
      Codes(f.origins),
      if f.anyDestination then ["ANY"] else Codes(f.destinations),
      if f.searchMode == "build-your-own" then "one-way" else f.tripType,
      Some(f.departureDate),
      if f.tripType == "one-way" || f.searchMode == "build-your-own" then None else Some(f.returnDate),
      if f.searchMode == "build-your-own" && f.returnDate != "" then Some(f.returnDate) else None,
      if planner then Some(f.tripLength) else None,
      if planner then Some(f.tripLengthUnit) else None,
      if planner then Some(f.nonstopPreferred) else None,
      if withMax then Some(f.maxTripDuration) else None,
      if withMax then Some(f.maxTripDurationUnit) else None)
  }

  /** Every submitted airport is a clean code or the `ANY` marker. */
  lemma SubmittedAirports(f: Form)
    ensures forall i :: 0 <= i < |Submit(f).origins| ==> Code(Submit(f).origins[i])
    ensures forall i :: 0 <= i < |Submit(f).destinations| ==>
              Code(Submit(f).destinations[i]) || (f.anyDestination && Submit(f).destinations[i] == "ANY")
  {
  }

  /** A build-your-own search is always sent as a one-way search with no
      return date, so it is streamed, not planned. The trip planner keys
      follow the hidden trip type field, which the build-your-own mode does
      not reset. */
  lemma BuildYourOwnIsOneWay(f: Form)
    requires f.searchMode == "build-your-own"
    ensures Submit(f).tripType == "one-way" && Submit(f).returnDate.None?
    ensures Submit(f).tripType != "trip-planner"
    ensures f.tripType == "trip-planner" ==> Submit(f).tripLength.Some?
  {
  }

  /** A planner search with a departure date, a trip length and at least
      one airport on each side passes the server's field check. */
  lemma PlannerReachesServer(f: Form)
    requires f.searchMode == "package" && f.tripType == "trip-planner"
    requires f.departureDate != "" && f.tripLength != ""
    requires |Codes(f.origins)| > 0 && (f.anyDestination || |Codes(f.destinations)| > 0)
    ensures Submit(f).tripType == "trip-planner"
    ensures ServerApp.PlannerFieldsPresent(Submit(f))
  {
  }

  /** The initial form, once airports and a date are filled in, asks for a
      round trip with an empty return date and no optional keys. */
  lemma InitialSubmission(origins: string, destinations: string, departure: string)
    ensures var p := Submit(InitialForm.(origins := origins, destinations := destinations, departureDate := departure));
      && p.tripType == "round-trip" && p.returnDate == Some("")
      && p.desiredReturnDate.None? && p.tripLength.None? && p.maxTripDuration.None?
  {
  }
}
