/** The browser-side result cache (`CacheManager` in src/services/api.js):
    entries live in `localStorage` under keys that start with `wildpass_`,
    each holding the cached data and the time it was written, and an entry
    is good for one hour after that. The clock (`Date.now()`) is the
    parameter `now`, in milliseconds. */
module ClientCache {
  import opened Common
  import opened Flights

  const Prefix: string := "wildpass_"

  /** One hour in milliseconds. */
  const Ttl: int := 60 * 60 * 1000

  /** The cached data: the `{flights: [...]}` object a search produces. */
  datatype Payload = Payload(flights: Option<seq<Flight>>)

  /** What `localStorage.getItem(key)` yields, as the cache reads it: a
      parsed entry (its timestamp is `None` when it is not a number, which
      makes the computed age `NaN`), a value whose parse throws, or the
      empty string. */
  datatype Stored =
    | Entry(data: Payload, timestamp: Option<int>)
    | Unreadable
    | Blank

  datatype Stats = Stats(total: nat, valid: nat, expired: nat)

  // ---------------------------------------------------------------------
  // getCacheKey
  // ---------------------------------------------------------------------

  /** `${departureDate}`: an absent date prints as `undefined`. */
  function ShowDeparture(d: Option<string>): string {
    match d
    case None => "undefined"
    case Some(s) => s
  }

  /** `${returnDate || 'null'}` */
  function ShowReturn(r: Option<string>): string {
    if Truthy(r) then r.value else "null"
  }

  /** `getCacheKey`: the lists are joined in the order given, not sorted. */
  function GetCacheKey(origins: seq<string>, destinations: seq<string>, tripType: string,
                       departureDate: Option<string>, returnDate: Option<string>): (k: string)
    ensures StartsWith(k, Prefix)
  {
    Prefix + (Join(origins, ",") + "_" + (Join(destinations, ",") + "_" + KeyTail(tripType, departureDate, returnDate)))
  }

  /** The fields after the two lists: `${tripType}_${departureDate}_${returnDate || 'null'}`. */
  function KeyTail(tripType: string, departureDate: Option<string>, returnDate: Option<string>): string
  {
    tripType + "_" + ShowDeparture(departureDate) + "_" + ShowReturn(returnDate)
  }

  /** Airport codes as the form produces them: non-empty, and free of the
      two characters the key uses as separators. */
  predicate Codes(codes: seq<string>) {
    forall i :: 0 <= i < |codes| ==> codes[i] != "" && ',' !in codes[i] && '_' !in codes[i]
  }

  lemma {:induction false} JoinCodes(p: seq<string>, q: seq<string>)
    requires Codes(p) && Codes(q)
    requires Join(p, ",") == Join(q, ",")
    ensures p == q
    ensures '_' !in Join(p, ",")
  {
    JoinAvoids(p, ",", '_');
    if |p| == 0 && |q| > 0 {
      JoinHeadLength(q, ",");
    } else if |q| == 0 && |p| > 0 {
      JoinHeadLength(p, ",");
    } else if |p| > 0 {
      JoinSplit(p, ',');
      JoinSplit(q, ',');
    }
  }

  lemma JoinHeadLength(parts: seq<string>, sep: string)
    requires |parts| >= 1
    ensures |Join(parts, sep)| >= |parts[0]|
  {
  }

  lemma KeyShape(p: seq<string>, d: seq<string>, t: string, x: Option<string>, y: Option<string>)
    ensures GetCacheKey(p, d, t, x, y)[|Prefix|..]
      == Join(p, ",") + ['_'] + (Join(d, ",") + ['_'] + KeyTail(t, x, y))
  {
  }

  /** The key keeps the direction of the search: two searches whose origin
      or destination lists differ, even only in order, get different keys. */
  lemma KeyDeterminesLists(p: seq<string>, d: seq<string>, q: seq<string>, e: seq<string>,
                           t: string, x: Option<string>, y: Option<string>)
    requires Codes(p) && Codes(d) && Codes(q) && Codes(e)
    requires GetCacheKey(p, d, t, x, y) == GetCacheKey(q, e, t, x, y)
    ensures p == q && d == e
  {
    var rest := KeyTail(t, x, y);
    KeyShape(p, d, t, x, y);
    KeyShape(q, e, t, x, y);
    JoinAvoids(p, ",", '_');
    JoinAvoids(d, ",", '_');
    JoinAvoids(q, ",", '_');
    JoinAvoids(e, ",", '_');
    SeparatedHeads(Join(p, ","), Join(q, ","), '_', Join(d, ",") + ['_'] + rest, Join(e, ",") + ['_'] + rest);
    SeparatedHeads(Join(d, ","), Join(e, ","), '_', rest, rest);
    JoinCodes(p, q);
    JoinCodes(d, e);
  }

  // ---------------------------------------------------------------------
  // Entries and their age
  // ---------------------------------------------------------------------

  /** `age < CACHE_DURATION`; a `NaN` age is never below it. */
  predicate Fresh(e: Stored, now: int)
    requires e.Entry?
  {
    e.timestamp.Some? && now - e.timestamp.value < Ttl
  }

  /** The storage after `setCache(key, data)` at time `now`. */
  function Write(s: map<string, Stored>, key: string, data: Payload, now: int): map<string, Stored>
  {
    s[key := Entry(data, Some(now))]
  }

  /** What `getCache(key)` returns at time `now`. */
  function Read(s: map<string, Stored>, key: string, now: int): Option<Payload>
  {
    if key in s && s[key].Entry? && Fresh(s[key], now) then Some(s[key].data) else None
  }

  /** The storage after `getCache(key)` at time `now`: an expired entry is
      removed. */
  function AfterRead(s: map<string, Stored>, key: string, now: int): map<string, Stored>
  {
    if key in s && s[key].Entry? && !Fresh(s[key], now) then s - {key} else s
  }

  /** Reading within the hour after a write gives back what was written,
      and leaves the storage as the write left it. */
  lemma WriteThenRead(s: map<string, Stored>, key: string, data: Payload, t0: int, t: int)
    requires t - t0 < Ttl
    ensures Read(Write(s, key, data, t0), key, t) == Some(data)
    ensures AfterRead(Write(s, key, data, t0), key, t) == Write(s, key, data, t0)
  {
  }

  /** An hour or more after the write, the entry reads as absent and is gone. */
  lemma WriteThenReadLate(s: map<string, Stored>, key: string, data: Payload, t0: int, t: int)
    requires t - t0 >= Ttl
    ensures Read(Write(s, key, data, t0), key, t) == None
    ensures AfterRead(Write(s, key, data, t0), key, t) == s - {key}
  {
  }

  /** Writing one key does not change what another key reads. */
  lemma WriteIsolated(s: map<string, Stored>, key: string, other: string, data: Payload, t0: int, t: int)
    requires other != key
    ensures Read(Write(s, key, data, t0), other, t) == Read(s, other, t)
  {
  }

  // ---------------------------------------------------------------------
  // clearCache and getCacheStats as functions of the storage
  // ---------------------------------------------------------------------

  /** The storage with every `wildpass_` key removed. */
  function Unprefixed(s: map<string, Stored>): map<string, Stored>
  {
    map k | k in s && !StartsWith(k, Prefix) :: s[k]
  }

  function CacheKeys(s: map<string, Stored>): set<string>
  {
    set k | k in s && StartsWith(k, Prefix)
  }

  function ValidKeys(s: map<string, Stored>, now: int): set<string>
  {
    set k | k in s && StartsWith(k, Prefix) && s[k].Entry? && Fresh(s[k], now)
  }

  function ExpiredKeys(s: map<string, Stored>, now: int): set<string>
  {
    set k | k in s && StartsWith(k, Prefix) && s[k].Entry? && !Fresh(s[k], now)
  }

  /** Some cache entry cannot be parsed, so the scan throws. */
  predicate ScanThrows(s: map<string, Stored>)
  {
    exists k :: k in s && StartsWith(k, Prefix) && s[k].Unreadable?
  }

  /** What `getCacheStats` reports at time `now`. */
  function StatsOf(s: map<string, Stored>, now: int): Stats
  {
    if ScanThrows(s) then Stats(0, 0, 0)
    else Stats(|CacheKeys(s)|, |ValidKeys(s, now)|, |ExpiredKeys(s, now)|)
  }

  lemma {:induction false} SubsetCard<T>(a: set<T>, b: set<T>)
    requires a <= b
    ensures |a| <= |b|
    decreases |a|
  {
    if a != {} {
      var x :| x in a;
      SubsetCard(a - {x}, b - {x});
    }
  }

  /** Valid and expired entries are disjoint cache entries, so together
      they never outnumber the cache keys; they account for all of them
      exactly when no cache key holds the empty string. */
  lemma StatsBound(s: map<string, Stored>, now: int)
    ensures StatsOf(s, now).valid + StatsOf(s, now).expired <= StatsOf(s, now).total
    ensures !ScanThrows(s) && (forall k :: k in s && StartsWith(k, Prefix) ==> !s[k].Blank?) ==>
      StatsOf(s, now).valid + StatsOf(s, now).expired == StatsOf(s, now).total
  {
    var v, e, c := ValidKeys(s, now), ExpiredKeys(s, now), CacheKeys(s);
    assert v * e == {};
    assert |v + e| == |v| + |e|;
    SubsetCard(v + e, c);
    if !ScanThrows(s) && (forall k :: k in s && StartsWith(k, Prefix) ==> !s[k].Blank?) {
      assert v + e == c;
    }
  }

  /** The cache keys among `done` whose entries are live (`live`) or
      expired (`!live`). */
  function Scanned(s: map<string, Stored>, done: set<string>, now: int, live: bool): set<string>
    requires done <= s.Keys
  {
    set k | k in done && s[k].Entry? && Fresh(s[k], now) == live
  }

  /** Scanning one more key adds it to the live or the expired keys, or to
      neither. */
  lemma ScannedStep(s: map<string, Stored>, keys: set<string>, rest: set<string>, k: string, now: int)
    requires keys <= s.Keys && rest <= keys && k in rest
    ensures keys - (rest - {k}) == (keys - rest) + {k} && k !in keys - rest
    ensures |Scanned(s, keys - (rest - {k}), now, true)|
      == |Scanned(s, keys - rest, now, true)| + (if s[k].Entry? && Fresh(s[k], now) then 1 else 0)
    ensures |Scanned(s, keys - (rest - {k}), now, false)|
      == |Scanned(s, keys - rest, now, false)| + (if s[k].Entry? && !Fresh(s[k], now) then 1 else 0)
  {
    var done := keys - rest;
    assert keys - (rest - {k}) == done + {k};
    ScannedOne(s, done, k, now, true);
    ScannedOne(s, done, k, now, false);
  }

  lemma ScannedOne(s: map<string, Stored>, done: set<string>, k: string, now: int, live: bool)
    requires done <= s.Keys && k in s && k !in done
    ensures |Scanned(s, done + {k}, now, live)|
      == |Scanned(s, done, now, live)| + (if s[k].Entry? && Fresh(s[k], now) == live then 1 else 0)
  {
    var before, after := Scanned(s, done, now, live), Scanned(s, done + {k}, now, live);
    if s[k].Entry? && Fresh(s[k], now) == live {
      assert after == before + {k};
    } else {
      assert after == before;
    }
  }

  lemma ScannedAll(s: map<string, Stored>, keys: set<string>, now: int)
    requires keys == CacheKeys(s)
    ensures keys - {} == keys
    ensures Scanned(s, keys, now, true) == ValidKeys(s, now)
    ensures Scanned(s, keys, now, false) == ExpiredKeys(s, now)
  {
  }

  /** After a clear, the statistics are all zero. */
  lemma StatsAfterClear(s: map<string, Stored>, now: int)
    ensures StatsOf(Unprefixed(s), now) == Stats(0, 0, 0)
  {
    assert CacheKeys(Unprefixed(s)) == {};
    assert ValidKeys(Unprefixed(s), now) == {};
    assert ExpiredKeys(Unprefixed(s), now) == {};
  }

  /** `CacheManager` over `localStorage`. */
  class CacheManager {
    var storage: map<string, Stored>

    constructor(initial: map<string, Stored>)
      ensures storage == initial
    {
      storage := initial;
    }

    /** `setCache(key, data)`: store the data with the current time. */
    method SetCache(key: string, data: Payload, now: int)
      modifies this
      ensures storage == Write(old(storage), key, data, now)
    {
      storage := storage[key := Entry(data, Some(now))];
    }

    /** `getCache(key)`: a live entry's data, lazy removal of an expired
        entry, and nothing for a missing, empty or unparsable value. */
    method GetCache(key: string, now: int) returns (r: Option<Payload>)
      modifies this
      ensures r == Read(old(storage), key, now) && storage == AfterRead(old(storage), key, now)
      ensures key in old(storage) && old(storage)[key].Entry? && Fresh(old(storage)[key], now) ==>
        r == Some(old(storage)[key].data) && storage == old(storage)
      ensures key in old(storage) && old(storage)[key].Entry? && !Fresh(old(storage)[key], now) ==>
        r.None? && storage == old(storage) - {key}
      ensures key !in old(storage) || !old(storage)[key].Entry? ==> r.None? && storage == old(storage)
    {
      if key !in storage {
        return None;
      }
      match storage[key]
      case Blank =>
        return None;
      case Unreadable =>
        return None;
      case Entry(data, timestamp) =>
        if timestamp.Some? && now - timestamp.value < Ttl {
          return Some(data);
        }
        storage := storage - {key};
        return None;
    }

    /** `clearCache`: remove every key that starts with the prefix. */
    method ClearCache()
      modifies this
      ensures storage == Unprefixed(old(storage))
      ensures forall k :: k in storage ==> !StartsWith(k, Prefix)
      ensures forall k :: k in old(storage) && !StartsWith(k, Prefix) ==> k in storage && storage[k] == old(storage)[k]
    {
      var keys := storage.Keys;
      while keys != {}
        invariant keys <= old(storage).Keys
        invariant forall k :: k in storage <==> k in old(storage) && (k in keys || !StartsWith(k, Prefix))
        invariant forall k :: k in storage ==> storage[k] == old(storage)[k]
        decreases keys
      {
        var k :| k in keys;
        if StartsWith(k, Prefix) {
          storage := storage - {k};
        }
        keys := keys - {k};
      }
      assert storage.Keys == Unprefixed(old(storage)).Keys;
    }

    /** `getCacheStats`: count the cache keys and, among their entries,
        the live and the expired ones; the storage is not changed. */
    method GetCacheStats(now: int) returns (st: Stats)
      ensures st == StatsOf(storage, now)
    {
      var keys := set k | k in storage && StartsWith(k, Prefix);
      var rest := keys;
      var valid, expired := 0, 0;
      while rest != {}
        invariant rest <= keys
        invariant forall k :: k in keys - rest ==> !storage[k].Unreadable?
        invariant valid == |Scanned(storage, keys - rest, now, true)|
        invariant expired == |Scanned(storage, keys - rest, now, false)|
        decreases rest
      {
        var k :| k in rest;
        ScannedStep(storage, keys, rest, k, now);
        match storage[k] {
          case Unreadable =>
            return Stats(0, 0, 0);
          case Blank =>
          case Entry(_, timestamp) =>
            if timestamp.Some? && now - timestamp.value < Ttl {
              valid := valid + 1;
            } else {
              expired := expired + 1;
            }
        }
        rest := rest - {k};
      }
      ScannedAll(storage, keys, now);
      st := Stats(|keys|, valid, expired);
    }
  }
}
