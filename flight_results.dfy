/** The result shaping of `src/components/FlightResults.js`: the optional
    nonstop and GoWild filters, grouping by destination, the in-place sort
    of each group, the order of the groups by their cheapest fare, and the
    small labels and handler choice of the results header. */
module FlightResults {
  import opened Common
  import opened Flights
  import AppSession
  import SearchForm

  // ---------------------------------------------------------------------
  // Filters
  // ---------------------------------------------------------------------

  /** `flights.filter(f => f.stops === 0)` */
  function Nonstop(fs: seq<Flight>): (r: seq<Flight>)
    ensures forall f :: f in r <==> f in fs && f.stops == 0
  {
    if |fs| == 0 then []
    else Nonstop(fs[..|fs| - 1]) + (if fs[|fs| - 1].stops == 0 then [fs[|fs| - 1]] else [])
  }

  /** `flights.filter(f => f.gowild_eligible)` */
  function GoWildOnly(fs: seq<Flight>): (r: seq<Flight>)
    ensures forall f :: f in r <==> f in fs && f.gowildEligible
  {
    if |fs| == 0 then []
    else GoWildOnly(fs[..|fs| - 1]) + (if fs[|fs| - 1].gowildEligible then [fs[|fs| - 1]] else [])
  }

  /** The flights a filter setting keeps. */
  predicate Shown(f: Flight, nonstopOnly: bool, gowildOnly: bool)
  {
    (!nonstopOnly || f.stops == 0) && (!gowildOnly || f.gowildEligible)
  }

  /** The two filters, applied one after the other. */
  function Filtered(fs: seq<Flight>, nonstopOnly: bool, gowildOnly: bool): seq<Flight>
  {
    var a := if nonstopOnly then Nonstop(fs) else fs;
    if gowildOnly then GoWildOnly(a) else a
  }

  /** One pass that keeps the flights both filters keep. */
  function ShownOnly(fs: seq<Flight>, nonstopOnly: bool, gowildOnly: bool): seq<Flight>
  {
    if |fs| == 0 then []
    else ShownOnly(fs[..|fs| - 1], nonstopOnly, gowildOnly)
         + (if Shown(fs[|fs| - 1], nonstopOnly, gowildOnly) then [fs[|fs| - 1]] else [])
  }

  /** Filtering twice is filtering once by both conditions, in the
      original order: only nonstop flights remain under the nonstop filter,
      only eligible ones under the GoWild filter. */
  lemma {:induction false} FiltersCompose(fs: seq<Flight>, nonstopOnly: bool, gowildOnly: bool)
    ensures Filtered(fs, nonstopOnly, gowildOnly) == ShownOnly(fs, nonstopOnly, gowildOnly)
  {
    if |fs| > 0 {
      var init := fs[..|fs| - 1];
      FiltersCompose(init, nonstopOnly, gowildOnly);
      if nonstopOnly && gowildOnly {
        var n := Nonstop(fs);
        if fs[|fs| - 1].stops == 0 {
          assert n[..|n| - 1] == Nonstop(init);
        } else {
          assert n == Nonstop(init);
        }
      }
    }
  }

  // ---------------------------------------------------------------------
  // Grouping by destination
  // ---------------------------------------------------------------------

  /** The flights to `d`, in order. */
  function ToDest(fs: seq<Flight>, d: string): (r: seq<Flight>)
    ensures forall f :: f in r ==> f.destination == d
    ensures multiset(r) <= multiset(fs)
  {
    if |fs| == 0 then []
    else
      assert fs == fs[..|fs| - 1] + [fs[|fs| - 1]];
      ToDest(fs[..|fs| - 1], d) + (if fs[|fs| - 1].destination == d then [fs[|fs| - 1]] else [])
  }

  /** The destinations in order of first appearance: the keys of the
      `groups` object in insertion order. */
  function Destinations(fs: seq<Flight>): (r: seq<string>)
    ensures forall i, j :: 0 <= i < j < |r| ==> r[i] != r[j]
  {
    if |fs| == 0 then []
    else
      var ks := Destinations(fs[..|fs| - 1]);
      if fs[|fs| - 1].destination in ks then ks else ks + [fs[|fs| - 1].destination]
  }

  /** A destination is a key exactly when some flight goes there. */
  lemma {:induction false} DestinationsListed(fs: seq<Flight>, d: string)
    ensures d in Destinations(fs) <==> |ToDest(fs, d)| > 0
  {
    if |fs| > 0 {
      DestinationsListed(fs[..|fs| - 1], d);
    }
  }

  /** The groups, one list per key. */
  function GroupLists(fs: seq<Flight>, keys: seq<string>): (r: seq<seq<Flight>>)
    ensures |r| == |keys|
  {
    seq(|keys|, i requires 0 <= i < |keys| => ToDest(fs, keys[i]))
  }

  /** Adding one flight to the list at index `j` adds it to the
      concatenation. */
  lemma {:induction false} FlattenGrow(bs: seq<seq<Flight>>, cs: seq<seq<Flight>>, j: nat, f: Flight)
    requires |bs| == |cs| && j < |bs|
    requires cs[j] == bs[j] + [f]
    requires forall i :: 0 <= i < |bs| && i != j ==> cs[i] == bs[i]
    ensures multiset(Flatten(cs)) == multiset(Flatten(bs)) + multiset{f}
    decreases |bs|
  {
    var n := |bs| - 1;
    assert Flatten(cs) == Flatten(cs[..n]) + cs[n];
    assert Flatten(bs) == Flatten(bs[..n]) + bs[n];
    if j < n {
      FlattenGrow(bs[..n], cs[..n], j, f);
    } else {
      assert cs[..n] == bs[..n];
    }
  }

  /** The groups partition the flights: every flight lies in the group of
      its own destination, and nothing is lost or duplicated. */
  lemma {:induction false} GroupsPartition(fs: seq<Flight>)
    ensures multiset(Flatten(GroupLists(fs, Destinations(fs)))) == multiset(fs)
  {
    if |fs| > 0 {
      var init, f := fs[..|fs| - 1], fs[|fs| - 1];
      assert fs == init + [f];
      assert multiset(fs) == multiset(init) + multiset{f};
      GroupsPartition(init);
      if f.destination in Destinations(init) {
        PushOntoGroup(init, f);
      } else {
        OpenGroup(init, f);
      }
    }
  }

  /** A flight to a destination already seen joins that destination's list. */
  lemma PushOntoGroup(init: seq<Flight>, f: Flight)
    requires f.destination in Destinations(init)
    ensures Destinations(init + [f]) == Destinations(init)
    ensures multiset(Flatten(GroupLists(init + [f], Destinations(init))))
         == multiset(Flatten(GroupLists(init, Destinations(init)))) + multiset{f}
  {
    var fs := init + [f];
    assert fs[..|fs| - 1] == init;
    var ks := Destinations(init);
    var d := f.destination;
    var before := GroupLists(init, ks);
    var j :| 0 <= j < |ks| && ks[j] == d;
    var after := GroupLists(fs, ks);
    forall i | 0 <= i < |ks| && i != j
      ensures after[i] == before[i]
    {
      ToDestSnoc(init, f, ks[i]);
    }
    ToDestSnoc(init, f, d);
    FlattenGrow(before, after, j, f);
  }

  /** A flight to a new destination opens a list of its own at the end. */
  lemma OpenGroup(init: seq<Flight>, f: Flight)
    requires f.destination !in Destinations(init)
    ensures Destinations(init + [f]) == Destinations(init) + [f.destination]
    ensures multiset(Flatten(GroupLists(init + [f], Destinations(init + [f]))))
         == multiset(Flatten(GroupLists(init, Destinations(init)))) + multiset{f}
  {
    var fs := init + [f];
    assert fs[..|fs| - 1] == init;
    var ks := Destinations(init);
    var before := GroupLists(init, ks);
    OpenedLists(init, f);
    FlattenAppend(before, [f]);
  }

  /** The lists after a flight to a new destination: the old lists, then
      the new destination's list holding that flight alone. */
  lemma OpenedLists(init: seq<Flight>, f: Flight)
    requires f.destination !in Destinations(init)
    ensures GroupLists(init + [f], Destinations(init) + [f.destination])
         == GroupLists(init, Destinations(init)) + [[f]]
  {
    var ks := Destinations(init);
    var d := f.destination;
    var before := GroupLists(init, ks);
    var after := GroupLists(init + [f], ks + [d]);
    var grown := before + [[f]];
    assert |after| == |grown| == |ks| + 1;
    DestinationsListed(init, d);
    ToDestSnoc(init, f, d);
    forall i | 0 <= i < |after|
      ensures after[i] == grown[i]
    {
      if i == |ks| {
        assert after[i] == ToDest(init + [f], d) == [f] == grown[i];
      } else {
        OldListKept(init, f, ks, i);
      }
    }
    SameElements(after, grown);
  }

  /** A list of a destination other than the new flight's is unchanged. */
  lemma OldListKept(init: seq<Flight>, f: Flight, ks: seq<string>, i: nat)
    requires f.destination !in ks && i < |ks|
    ensures GroupLists(init + [f], ks + [f.destination])[i] == GroupLists(init, ks)[i]
  {
    var k := ks[i];
    assert (ks + [f.destination])[i] == k && k != f.destination;
    ToDestSnoc(init, f, k);
  }

  lemma SameElements(a: seq<seq<Flight>>, b: seq<seq<Flight>>)
    requires |a| == |b| && forall i :: 0 <= i < |a| ==> a[i] == b[i]
    ensures a == b
  {
  }

  /** Appending a flight extends the list of its own destination only. */
  lemma ToDestSnoc(init: seq<Flight>, f: Flight, d: string)
    ensures ToDest(init + [f], d) == ToDest(init, d) + (if f.destination == d then [f] else [])
  {
    assert (init + [f])[..|init|] == init;
  }

  /** The `forEach` that pushes each flight onto its destination's list. */
  method GroupByDestination(fs: seq<Flight>) returns (keys: seq<string>, groups: map<string, seq<Flight>>)
    ensures keys == Destinations(fs)
    ensures forall k :: k in groups <==> k in keys
    ensures forall k :: k in groups ==> groups[k] == ToDest(fs, k)
  {
    keys, groups := [], map[];
    for i := 0 to |fs|
      invariant keys == Destinations(fs[..i])
      invariant forall k :: k in groups <==> k in keys
      invariant forall k :: k in groups ==> groups[k] == ToDest(fs[..i], k)
    {
      var f := fs[i];
      assert fs[..i + 1][..i] == fs[..i];
      DestinationsListed(fs[..i], f.destination);
      if f.destination !in groups {
        groups := groups[f.destination := []];
        keys := keys + [f.destination];
      }
      groups := groups[f.destination := groups[f.destination] + [f]];
    }
    assert fs[..|fs|] == fs;
  }

  // ---------------------------------------------------------------------
  // Sorting a group in place
  // ---------------------------------------------------------------------

  /** `sortBy`; the date-based orders are not modelled. Any other value
      falls back to the price order. */
  datatype SortBy = ByPrice | ByNonstop

  /** The comparator returns at most zero: `a` may stay before `b`. */
  predicate NotAfter(a: Flight, b: Flight, order: SortBy)
  {
    match order
    case ByPrice => a.price <= b.price
    case ByNonstop => if (a.stops == 0) != (b.stops == 0) then a.stops == 0 else a.price <= b.price
  }

  predicate SortedBy(s: seq<Flight>, order: SortBy)
  {
    forall i, j :: 0 <= i < j < |s| ==> NotAfter(s[i], s[j], order)
  }

  lemma NotAfterTotal(a: Flight, b: Flight, order: SortBy)
    ensures NotAfter(a, b, order) || NotAfter(b, a, order)
  {
  }

  lemma NotAfterTransitive(a: Flight, b: Flight, c: Flight, order: SortBy)
    requires NotAfter(a, b, order) && NotAfter(b, c, order)
    ensures NotAfter(a, c, order)
  {
  }

  /** Under the nonstop order every nonstop flight comes before every
      flight with stops, and each of the two runs is in price order. */
  lemma NonstopOrder(s: seq<Flight>)
    requires SortedBy(s, ByNonstop)
    ensures forall i, j :: 0 <= i < |s| && 0 <= j < |s| && s[i].stops == 0 && s[j].stops != 0 ==> i < j
    ensures forall i, j :: 0 <= i < j < |s| && (s[i].stops == 0) == (s[j].stops == 0) ==> s[i].price <= s[j].price
  {
  }

  /** Halfway through inserting `s[j]` into the sorted `s[..i]`: the
      other elements up to `i` are in order, and `s[j]` may precede every
      element after it. */
  predicate Inserting(s: seq<Flight>, j: nat, i: nat, order: SortBy)
  {
    && j <= i < |s|
    && (forall p, q :: 0 <= p < q <= i && p != j && q != j ==> NotAfter(s[p], s[q], order))
    && (forall q :: j < q <= i ==> NotAfter(s[j], s[q], order))
  }

  lemma SwapKeeps(s: seq<Flight>, j: nat, i: nat, order: SortBy)
    requires Inserting(s, j, i, order) && j > 0 && !NotAfter(s[j - 1], s[j], order)
    ensures Inserting(s[j - 1 := s[j]][j := s[j - 1]], j - 1, i, order)
  {
    NotAfterTotal(s[j - 1], s[j], order);
  }

  lemma InsertDone(s: seq<Flight>, j: nat, i: nat, order: SortBy)
    requires Inserting(s, j, i, order) && (j == 0 || NotAfter(s[j - 1], s[j], order))
    ensures SortedBy(s[..i + 1], order)
  {
    forall p | 0 <= p < j - 1
      ensures NotAfter(s[p], s[j], order)
    {
      NotAfterTransitive(s[p], s[j - 1], s[j], order);
    }
  }

  /** Moves `a[i]` left past every element that must follow it. */
  method InsertAt(a: array<Flight>, i: nat, order: SortBy)
    requires i < a.Length && SortedBy(a[..i], order)
    modifies a
    ensures SortedBy(a[..i + 1], order)
    ensures multiset(a[..]) == multiset(old(a[..]))
  {
    var j: nat := i;
    while j > 0 && !NotAfter(a[j - 1], a[j], order)
      invariant Inserting(a[..], j, i, order)
      invariant multiset(a[..]) == multiset(old(a[..]))
    {
      ghost var s := a[..];
      a[j - 1], a[j] := a[j], a[j - 1];
      assert a[..] == s[j - 1 := s[j]][j := s[j - 1]];
      SwapKeeps(s, j, i, order);
      j := j - 1;
    }
    InsertDone(a[..], j, i, order);
  }

  /** `groups[dest].sort(compare)` */
  method SortGroup(a: array<Flight>, order: SortBy)
    modifies a
    ensures SortedBy(a[..], order)
    ensures multiset(a[..]) == multiset(old(a[..]))
  {
    for i := 0 to a.Length
      invariant SortedBy(a[..i], order)
      invariant multiset(a[..]) == multiset(old(a[..]))
    {
      InsertAt(a, i, order);
    }
    assert a[..a.Length] == a[..];
  }

  // ---------------------------------------------------------------------
  // Ordering the groups
  // ---------------------------------------------------------------------

  /** `Math.min(...flights.map(f => f.price))` */
  function MinPrice(fs: seq<Flight>): real
    requires |fs| > 0
  {
    if |fs| == 1 then fs[0].price
    else
      var m := MinPrice(fs[..|fs| - 1]);
      var x := fs[|fs| - 1].price;
      if x < m then x else m
  }

  /** The minimum is no dearer than any flight and is some flight's fare. */
  lemma {:induction false} MinPriceIsMinimum(fs: seq<Flight>)
    requires |fs| > 0
    ensures forall i :: 0 <= i < |fs| ==> MinPrice(fs) <= fs[i].price
    ensures exists i :: 0 <= i < |fs| && fs[i].price == MinPrice(fs)
  {
    if |fs| == 1 {
      assert fs[0].price == MinPrice(fs);
    } else {
      var init := fs[..|fs| - 1];
      MinPriceIsMinimum(init);
      var k :| 0 <= k < |init| && init[k].price == MinPrice(init);
      if fs[|fs| - 1].price < MinPrice(init) {
        assert fs[|fs| - 1].price == MinPrice(fs);
      } else {
        assert fs[k] == init[k];
        assert fs[k].price == MinPrice(fs);
      }
    }
  }

  /** The minimum does not depend on the order of the flights, so taking it
      after a group is sorted gives the cheapest fare of the group. */
  lemma MinPriceOrderFree(a: seq<Flight>, b: seq<Flight>)
    requires |a| > 0 && multiset(a) == multiset(b)
    ensures |b| > 0 && MinPrice(a) == MinPrice(b)
  {
    assert a[0] in multiset(b);
    MinPriceIsMinimum(a);
    MinPriceIsMinimum(b);
    var i :| 0 <= i < |a| && a[i].price == MinPrice(a);
    var j :| 0 <= j < |b| && b[j].price == MinPrice(b);
    assert a[i] in multiset(b);
    var i' :| 0 <= i' < |b| && b[i'] == a[i];
    assert b[j] in multiset(a);
    var j' :| 0 <= j' < |a| && a[j'] == b[j];
  }

  /** The cheapest fare of the group under key `k`. */
  function Cheapest(groups: map<string, seq<Flight>>, k: string): real
  {
    if k in groups && |groups[k]| > 0 then MinPrice(groups[k]) else 0.0
  }

  predicate KeysByPrice(ks: seq<string>, groups: map<string, seq<Flight>>)
  {
    forall i, j :: 0 <= i < j < |ks| ==> Cheapest(groups, ks[i]) <= Cheapest(groups, ks[j])
  }

  /** Places a key after every key whose group is not dearer, as a stable
      insertion sort does. */
  function InsertKey(x: string, s: seq<string>, groups: map<string, seq<Flight>>): (r: seq<string>)
    ensures multiset(r) == multiset(s) + multiset{x}
  {
    if |s| == 0 then [x]
    else if Cheapest(groups, s[|s| - 1]) <= Cheapest(groups, x) then s + [x]
    else
      assert s == s[..|s| - 1] + [s[|s| - 1]];
      InsertKey(x, s[..|s| - 1], groups) + [s[|s| - 1]]
  }

  /** `Object.keys(groups).sort(...)` by each group's cheapest fare. */
  function SortKeys(s: seq<string>, groups: map<string, seq<Flight>>): (r: seq<string>)
    ensures multiset(r) == multiset(s)
  {
    if |s| == 0 then []
    else
      assert s == s[..|s| - 1] + [s[|s| - 1]];
      InsertKey(s[|s| - 1], SortKeys(s[..|s| - 1], groups), groups)
  }

  lemma {:induction false} InsertKeyOrdered(x: string, s: seq<string>, groups: map<string, seq<Flight>>)
    requires KeysByPrice(s, groups)
    ensures KeysByPrice(InsertKey(x, s, groups), groups)
  {
    if |s| > 0 && Cheapest(groups, s[|s| - 1]) > Cheapest(groups, x) {
      var init, last := s[..|s| - 1], s[|s| - 1];
      InsertKeyOrdered(x, init, groups);
      var rest := InsertKey(x, init, groups);
      forall i | 0 <= i < |init|
        ensures Cheapest(groups, init[i]) <= Cheapest(groups, last)
      {
        assert init[i] == s[i];
      }
      InsertKeyBound(x, init, groups, Cheapest(groups, last));
      assert InsertKey(x, s, groups) == rest + [last];
    }
  }

  /** A bound on every key and on the inserted one bounds the result. */
  lemma InsertKeyBound(x: string, s: seq<string>, groups: map<string, seq<Flight>>, bound: real)
    requires forall i :: 0 <= i < |s| ==> Cheapest(groups, s[i]) <= bound
    requires Cheapest(groups, x) <= bound
    ensures forall k :: 0 <= k < |InsertKey(x, s, groups)| ==> Cheapest(groups, InsertKey(x, s, groups)[k]) <= bound
  {
    var r := InsertKey(x, s, groups);
    forall k | 0 <= k < |r|
      ensures Cheapest(groups, r[k]) <= bound
    {
      assert r[k] in multiset(r);
      if r[k] != x {
        assert r[k] in multiset(s);
        var i :| 0 <= i < |s| && s[i] == r[k];
      }
    }
  }

  lemma {:induction false} SortKeysOrdered(s: seq<string>, groups: map<string, seq<Flight>>)
    ensures KeysByPrice(SortKeys(s, groups), groups)
  {
    if |s| > 0 {
      SortKeysOrdered(s[..|s| - 1], groups);
      InsertKeyOrdered(s[|s| - 1], SortKeys(s[..|s| - 1], groups), groups);
    }
  }

  /** The `forEach` over the keys that sorts each group's list in place. */
  method SortEachGroup(keys: seq<string>, groups: map<string, seq<Flight>>, order: SortBy)
    returns (sorted: map<string, seq<Flight>>)
    requires forall k :: k in groups <==> k in keys
    ensures sorted.Keys == groups.Keys
    ensures forall k :: k in sorted ==> SortedBy(sorted[k], order) && multiset(sorted[k]) == multiset(groups[k])
  {
    sorted := groups;
    for i := 0 to |keys|
      invariant sorted.Keys == groups.Keys
      invariant forall k :: k in sorted ==> multiset(sorted[k]) == multiset(groups[k])
      invariant forall k :: k in keys[..i] ==> SortedBy(sorted[k], order)
    {
      var k := keys[i];
      var list := sorted[k];
      var a := new Flight[|list|](n requires 0 <= n < |list| => list[n]);
      assert a[..] == list;
      SortGroup(a, order);
      ghost var before := sorted;
      sorted := sorted[k := a[..]];
      assert keys[..i + 1] == keys[..i] + [k];
      forall j | j in keys[..i + 1]
        ensures SortedBy(sorted[j], order)
      {
        if j != k {
          assert j in keys[..i] && sorted[j] == before[j];
        }
      }
    }
    assert keys[..|keys|] == keys;
    forall j | j in sorted
      ensures SortedBy(sorted[j], order)
    {
      assert j in keys[..|keys|];
    }
  }

  // ---------------------------------------------------------------------
  // The whole computation
  // ---------------------------------------------------------------------

  /** One destination card's data. */
  datatype Group = Group(destination: string, flights: seq<Flight>, origin: string)

  function DestinationsOf(gs: seq<Group>): seq<string>
  {
    seq(|gs|, i requires 0 <= i < |gs| => gs[i].destination)
  }

  /** A group as it is shown: its flights are the shown flights to its
      destination, sorted, and its origin is its first flight's. */
  predicate GroupOf(g: Group, shown: seq<Flight>, order: SortBy)
  {
    && |g.flights| > 0
    && g.origin == g.flights[0].origin
    && SortedBy(g.flights, order)
    && multiset(g.flights) == multiset(ToDest(shown, g.destination))
  }

  function GroupPrice(g: Group): real
  {
    if |g.flights| == 0 then 0.0 else MinPrice(g.flights)
  }

  predicate ByCheapest(gs: seq<Group>)
  {
    forall i, j :: 0 <= i < j < |gs| ==> GroupPrice(gs[i]) <= GroupPrice(gs[j])
  }

  /** Every group present in the map is non-empty: a key exists only once a
      flight has been pushed under it. */
  lemma GroupsNonEmpty(shown: seq<Flight>, keys: seq<string>, groups: map<string, seq<Flight>>, sorted: map<string, seq<Flight>>)
    requires keys == Destinations(shown)
    requires forall k :: k in groups <==> k in keys
    requires forall k :: k in groups ==> groups[k] == ToDest(shown, k)
    requires sorted.Keys == groups.Keys
    requires forall k :: k in sorted ==> multiset(sorted[k]) == multiset(groups[k])
    ensures forall k :: k in sorted ==> |sorted[k]| > 0
  {
    forall k | k in sorted
      ensures |sorted[k]| > 0
    {
      DestinationsListed(shown, k);
      assert |sorted[k]| == |multiset(sorted[k])| == |multiset(groups[k])| == |groups[k]|;
    }
  }

  /** The cards for the ordered keys: each key's sorted list and the
      origin of its first flight. */
  function Cards(destinations: seq<string>, sorted: map<string, seq<Flight>>): (r: seq<Group>)
    requires forall k :: k in destinations ==> k in sorted && |sorted[k]| > 0
    ensures DestinationsOf(r) == destinations
    ensures forall i :: 0 <= i < |r| ==> r[i].flights == sorted[destinations[i]]
  {
    seq(|destinations|, i requires 0 <= i < |destinations| =>
      Group(destinations[i], sorted[destinations[i]], sorted[destinations[i]][0].origin))
  }

  /** The cards inherit the order of the keys and the shape of the groups. */
  lemma CardsShown(shown: seq<Flight>, destinations: seq<string>, groups: map<string, seq<Flight>>,
                   sorted: map<string, seq<Flight>>, order: SortBy)
    requires forall k :: k in destinations ==> k in sorted && |sorted[k]| > 0
    requires sorted.Keys == groups.Keys
    requires forall k :: k in groups ==> groups[k] == ToDest(shown, k)
    requires forall k :: k in sorted ==> SortedBy(sorted[k], order) && multiset(sorted[k]) == multiset(groups[k])
    requires KeysByPrice(destinations, sorted)
    ensures forall i :: 0 <= i < |Cards(destinations, sorted)| ==> GroupOf(Cards(destinations, sorted)[i], shown, order)
    ensures ByCheapest(Cards(destinations, sorted))
  {
    var r := Cards(destinations, sorted);
    forall i | 0 <= i < |r|
      ensures GroupOf(r[i], shown, order)
      ensures GroupPrice(r[i]) == Cheapest(sorted, destinations[i])
    {
      assert destinations[i] in destinations;
    }
  }

  /** `groupedFlights`: one group per destination among the shown flights,
      each holding exactly the shown flights to it in the chosen order, and
      the groups in order of their cheapest fare. */
  method GroupedFlights(fs: seq<Flight>, order: SortBy, nonstopOnly: bool, gowildOnly: bool)
    returns (result: seq<Group>)
    ensures var shown := Filtered(fs, nonstopOnly, gowildOnly);
      && multiset(DestinationsOf(result)) == multiset(Destinations(shown))
      && (forall i :: 0 <= i < |result| ==> GroupOf(result[i], shown, order))
      && ByCheapest(result)
  {
    var shown := if nonstopOnly then Nonstop(fs) else fs;
    if gowildOnly {
      shown := GoWildOnly(shown);
    }
    var keys, groups := GroupByDestination(shown);
    var sorted := SortEachGroup(keys, groups, order);
    GroupsNonEmpty(shown, keys, groups, sorted);
    var destinations := SortKeys(keys, sorted);
    SortKeysOrdered(keys, sorted);
    forall k | k in destinations
      ensures k in sorted
    {
      assert k in multiset(keys);
    }
    result := Cards(destinations, sorted);
    CardsShown(shown, destinations, groups, sorted, order);
  }

  // ---------------------------------------------------------------------
  // Header text and handler choice
  // ---------------------------------------------------------------------

  const TripTypeLabels: map<string, string> := map[
    "one-way" := "One Way",
    "round-trip" := "Round Trip",
    "day-trip" := "Day Trip",
    "trip-planner" := "Trip Planner"
  ]

  /** `getTripTypeLabel`: the four known trip types get their label, any
      other is shown as it is. */
  function TripTypeLabel(tripType: string): (shown: string)
    ensures tripType in TripTypeLabels ==> shown == TripTypeLabels[tripType]
    ensures shown == tripType <==> tripType !in TripTypeLabels
  {
    if tripType in TripTypeLabels then TripTypeLabels[tripType] else tripType
  }

  /** `destinationText`: the header reads `Any Airport` exactly when `ANY`
      is among the destinations or the one destination is named so. */
  function DestinationText(destinations: seq<string>): (text: string)
    ensures text == "Any Airport" <==> "ANY" in destinations || destinations == ["Any Airport"]
  {
    if "ANY" in destinations then "Any Airport"
    else
      ListingIsNotAnyAirport(destinations);
      Join(destinations, ", ")
  }

  /** A `, `-joined list spells `Any Airport` only when that is its one
      entry: two or more entries put a comma into the text. */
  lemma ListingIsNotAnyAirport(ds: seq<string>)
    ensures ds != ["Any Airport"] ==> Join(ds, ", ") != "Any Airport"
  {
    if |ds| >= 2 {
      var text := Join(ds, ", ");
      assert text == ds[0] + ", " + Join(ds[1..], ", ");
      assert text[|ds[0]|] == ',';
      assert ',' !in "Any Airport";
    }
  }

  /** The header names every searched destination, in order: for codes as
      the search form submits them and no `ANY`, reading the text back the
      way the form reads a code list gives the destinations. */
  lemma DestinationTextReadsBack(destinations: seq<string>)
    requires "ANY" !in destinations
    requires forall i :: 0 <= i < |destinations| ==> SearchForm.Code(destinations[i])
    ensures SearchForm.Codes(DestinationText(destinations)) == destinations
  {
    SearchForm.CodesOfListing(destinations);
  }

  /** The select handler a destination card gets. */
  datatype Handler = SelectOutboundHandler | SelectReturnHandler

  function HandlerFor(step: AppSession.Step): Handler
  {
    if step == AppSession.Outbound then SelectOutboundHandler else SelectReturnHandler
  }

  /** Cards offer outbound selection only at the outbound step: after an
      outbound flight is chosen they offer the return choice, and after
      the trip is complete they still do, since the step is not checked. */
  lemma HandlerFollowsStep(step: AppSession.Step)
    ensures HandlerFor(step) == SelectOutboundHandler <==> step == AppSession.Outbound
    ensures HandlerFor(AppSession.Return) == SelectReturnHandler
    ensures HandlerFor(AppSession.Complete) == SelectReturnHandler
  {
  }
}
