/** The streaming search in the browser (`searchFlightsStreaming` in
    src/services/api.js): answer from the cache when it can; otherwise read
    the server's response body chunk by chunk, cut it into lines at `\n`,
    and handle each complete `data: ` line as one JSON event. The JSON
    decoder is the parameter `decode` (`None` where `JSON.parse` throws or
    reading a field of the result does); the callbacks are recorded, in
    order, as a trace. */
module EventStream {
  import opened Common
  import opened Flights
  import opened ClientCache

  /** An event as the loop reads it: whether `event.complete` is truthy,
      `event.total_flights`, and `event.flights` when present. */
  datatype StreamEvent = StreamEvent(complete: bool, totalFlights: int, flights: Option<seq<Flight>>)

  /** One call of `onFlights`, `onComplete` or `onError`. */
  datatype Callback =
    | OnFlights(batch: seq<Flight>)
    | OnComplete(total: int, fromCache: bool)
    | OnError(message: string)

  /** A chunk of the response body, already decoded to text, and the clock
      when the loop handles it. */
  datatype Chunk = Chunk(text: string, time: int)

  /** The outcome of the `fetch`: it rejects, the status is not OK, or a
      body is read chunk by chunk until it is done or a read fails. */
  datatype Response =
    | Rejected(message: string)
    | NotOk(status: nat, statusText: string)
    | Body(chunks: seq<Chunk>, readFailure: Option<string>)

  /** A cache write: the flights accumulated so far and the time. */
  datatype Stamp = Stamp(flights: seq<Flight>, time: int)

  /** The loop's state besides the line buffer: the callbacks so far,
      `allFlights`, and the last cache write. */
  datatype Progress = Progress(trace: seq<Callback>, flights: seq<Flight>, written: Option<Stamp>)

  const DataPrefix: string := "data: "

  const Start: Progress := Progress([], [], None)

  /** The handling of one complete line. */
  function HandleLine(p: Progress, line: string, decode: string -> Option<StreamEvent>, time: int): Progress
  {
    if !StartsWith(line, DataPrefix) then p
    else match decode(line[|DataPrefix|..])
      case None => p
      case Some(ev) =>
        if ev.complete then
          p.(trace := p.trace + [OnComplete(ev.totalFlights, false)], written := Some(Stamp(p.flights, time)))
        else if ev.flights.Some? then
          p.(trace := p.trace + [OnFlights(ev.flights.value)], flights := p.flights + ev.flights.value)
        else p
  }

  /** The handling of a list of complete lines, first to last. */
  function HandleLines(p: Progress, lines: seq<string>, decode: string -> Option<StreamEvent>, time: int): Progress
  {
    if |lines| == 0 then p
    else HandleLine(HandleLines(p, lines[..|lines| - 1], decode, time), lines[|lines| - 1], decode, time)
  }

  /** The reader between chunks: the unfinished line and the progress. */
  datatype Reader = Reader(buffer: string, progress: Progress)

  /** One pass of `processText`: append the chunk, split at `\n`, keep the
      last piece as the new buffer and handle the others. */
  function Feed(r: Reader, c: Chunk, decode: string -> Option<StreamEvent>): Reader
  {
    var lines := Split(r.buffer + c.text, '\n');
    Reader(lines[|lines| - 1], HandleLines(r.progress, lines[..|lines| - 1], decode, c.time))
  }

  function FeedAll(chunks: seq<Chunk>, decode: string -> Option<StreamEvent>): Reader
  {
    if |chunks| == 0 then Reader("", Start)
    else Feed(FeedAll(chunks[..|chunks| - 1], decode), chunks[|chunks| - 1], decode)
  }

  /** The storage after the cache writes of a progress. */
  function Persist(s: map<string, Stored>, key: string, w: Option<Stamp>): map<string, Stored>
  {
    match w
    case None => s
    case Some(st) => Write(s, key, Payload(Some(st.flights)), st.time)
  }

  /** The callbacks of a cache hit. */
  function CachedCallbacks(data: Payload): seq<Callback>
  {
    (if data.flights.Some? then [OnFlights(data.flights.value)] else [])
      + [OnComplete(if data.flights.Some? then |data.flights.value| else 0, true)]
  }

  function StatusMessage(status: nat, statusText: string): string
  {
    "API error: " + NatToString(status) + " " + statusText
  }

  // ---------------------------------------------------------------------
  // Facts about the line handling
  // ---------------------------------------------------------------------

  /** Each pass keeps the text: the handled lines, each ended by `\n`, and
      the new buffer are the old buffer followed by the chunk; the new buffer
      holds no `\n`. */
  lemma FeedReassembles(r: Reader, c: Chunk, decode: string -> Option<StreamEvent>)
    ensures var lines := Split(r.buffer + c.text, '\n');
      Terminated(lines[..|lines| - 1]) + Feed(r, c, decode).buffer == r.buffer + c.text
    ensures '\n' !in Feed(r, c, decode).buffer
  {
    var lines := Split(r.buffer + c.text, '\n');
    SplitJoin(r.buffer + c.text, '\n');
    TerminatedJoin(lines);
  }

  /** Lines each followed by `\n`. */
  function Terminated(lines: seq<string>): string
  {
    if |lines| == 0 then "" else Terminated(lines[..|lines| - 1]) + lines[|lines| - 1] + "\n"
  }

  lemma {:induction false} TerminatedJoin(parts: seq<string>)
    requires |parts| >= 1
    ensures Terminated(parts[..|parts| - 1]) + parts[|parts| - 1] == Join(parts, "\n")
  {
    if |parts| > 1 {
      var rest := parts[1..];
      TerminatedJoin(rest);
      TerminatedCons(parts[0], rest[..|rest| - 1]);
      assert parts[..|parts| - 1] == [parts[0]] + rest[..|rest| - 1];
      assert parts[|parts| - 1] == rest[|rest| - 1];
    }
  }

  lemma {:induction false} TerminatedCons(head: string, lines: seq<string>)
    ensures Terminated([head] + lines) == head + "\n" + Terminated(lines)
  {
    if |lines| > 0 {
      TerminatedCons(head, lines[..|lines| - 1]);
      assert ([head] + lines)[..|lines|] == [head] + lines[..|lines| - 1];
    } else {
      assert [head] + lines == [head];
    }
  }

  /** Handling lines one list after another is handling them together. */
  lemma {:induction false} HandleLinesAppend(p: Progress, a: seq<string>, b: seq<string>,
                                             decode: string -> Option<StreamEvent>, time: int)
    ensures HandleLines(p, a + b, decode, time) == HandleLines(HandleLines(p, a, decode, time), b, decode, time)
  {
    if |b| > 0 {
      assert (a + b)[..|a + b| - 1] == a + b[..|b| - 1];
      HandleLinesAppend(p, a, b[..|b| - 1], decode, time);
    } else {
      assert a + b == a;
    }
  }

  /** A cache write without its time. */
  function Snapshot(w: Option<Stamp>): Option<seq<Flight>>
  {
    match w
    case None => None
    case Some(st) => Some(st.flights)
  }

  /** The callbacks, the flights and what the cache writes store do not
      depend on the clock. */
  lemma {:induction false} HandleLinesTimeless(p: Progress, q: Progress, lines: seq<string>,
                                               decode: string -> Option<StreamEvent>, t: int, u: int)
    requires p.trace == q.trace && p.flights == q.flights && Snapshot(p.written) == Snapshot(q.written)
    ensures HandleLines(p, lines, decode, t).trace == HandleLines(q, lines, decode, u).trace
    ensures HandleLines(p, lines, decode, t).flights == HandleLines(q, lines, decode, u).flights
    ensures Snapshot(HandleLines(p, lines, decode, t).written) == Snapshot(HandleLines(q, lines, decode, u).written)
  {
    if |lines| > 0 {
      HandleLinesTimeless(p, q, lines[..|lines| - 1], decode, t, u);
    }
  }

  /** Splitting text that begins with complete lines. */
  lemma {:induction false} SplitAfterLines(done: seq<string>, b: string, x: string)
    requires forall i :: 0 <= i < |done| ==> '\n' !in done[i]
    ensures Split(Terminated(done) + b + x, '\n') == done + Split(b + x, '\n')
    decreases |done|
  {
    if |done| > 0 {
      var head, rest := done[0], done[1..];
      assert done == [head] + rest;
      TerminatedCons(head, rest);
      Regroup(Terminated(done), head, Terminated(rest), b, x);
      assert '\n' !in head by { assert head == done[0]; }
      SplitAfterPiece(head, '\n', Terminated(rest) + b + x);
      assert forall i :: 0 <= i < |rest| ==> '\n' !in rest[i] by {
        forall i | 0 <= i < |rest| ensures '\n' !in rest[i] { assert rest[i] == done[i + 1]; }
      }
      SplitAfterLines(rest, b, x);
      var after := Split(b + x, '\n');
      assert Split(Terminated(done) + b + x, '\n') == [head] + (rest + after);
      AppendAssoc([head], rest, after);
    } else {
      assert Terminated(done) + b + x == b + x;
    }
  }

  lemma Regroup(t: string, head: string, mid: string, b: string, x: string)
    requires t == head + "\n" + mid
    ensures t + b + x == head + ['\n'] + (mid + b + x)
  {
  }

  /** The text of all chunks. */
  function Text(chunks: seq<Chunk>): string
  {
    if |chunks| == 0 then "" else Text(chunks[..|chunks| - 1]) + chunks[|chunks| - 1].text
  }

  /** The complete lines of a text: every piece but the last. */
  function CompleteLines(s: string): seq<string>
  {
    var pieces := Split(s, '\n');
    pieces[..|pieces| - 1]
  }

  /** The last piece of a text: what follows its last `\n`. */
  function LastPiece(s: string): string
  {
    var pieces := Split(s, '\n');
    pieces[|pieces| - 1]
  }

  /** A text is its complete lines, each ended by `\n`, followed by its
      last piece, which holds no `\n`. */
  lemma LinesAndRest(s: string)
    ensures Terminated(CompleteLines(s)) + LastPiece(s) == s
    ensures '\n' !in LastPiece(s)
    ensures forall i :: 0 <= i < |CompleteLines(s)| ==> '\n' !in CompleteLines(s)[i]
  {
    var pieces := Split(s, '\n');
    SplitJoin(s, '\n');
    TerminatedJoin(pieces);
    var done := CompleteLines(s);
    assert done == pieces[..|pieces| - 1];
    forall i | 0 <= i < |done|
      ensures '\n' !in done[i]
    {
      assert done[i] == pieces[i];
    }
  }

  /** Appending text only adds lines after the complete lines already there. */
  lemma TextSplitStep(s: string, x: string)
    ensures Split(s + x, '\n') == CompleteLines(s) + Split(LastPiece(s) + x, '\n')
    ensures CompleteLines(s + x) == CompleteLines(s) + CompleteLines(LastPiece(s) + x)
    ensures LastPiece(s + x) == LastPiece(LastPiece(s) + x)
  {
    var done, last := CompleteLines(s), LastPiece(s);
    LinesAndRest(s);
    assert s + x == Terminated(done) + last + x;
    SplitAfterLines(done, last, x);
    var after := Split(last + x, '\n');
    assert Split(s + x, '\n') == done + after;
    LastOfAppend(done, after);
    assert CompleteLines(s + x) == done + after[..|after| - 1];
    assert LastPiece(s + x) == after[|after| - 1];
  }

  lemma LastOfAppend(a: seq<string>, p: seq<string>)
    requires |p| >= 1
    ensures (a + p)[..|a + p| - 1] == a + p[..|p| - 1]
    ensures (a + p)[|a + p| - 1] == p[|p| - 1]
  {
  }

  /** After any chunks the buffer holds the text after the last `\n`. */
  lemma {:induction false} FeedAllBuffer(chunks: seq<Chunk>, decode: string -> Option<StreamEvent>)
    ensures FeedAll(chunks, decode).buffer == LastPiece(Text(chunks))
  {
    if |chunks| > 0 {
      var init := chunks[..|chunks| - 1];
      FeedAllBuffer(init, decode);
      TextSplitStep(Text(init), chunks[|chunks| - 1].text);
    }
  }

  /** How the body is cut into chunks does not matter: after any chunks the
      callbacks and the accumulated flights are those of handling every
      complete line of the whole text at once, so an unfinished last line is
      never handled. */
  lemma {:induction false} ChunkingIrrelevant(chunks: seq<Chunk>, decode: string -> Option<StreamEvent>, t: int)
    ensures FeedAll(chunks, decode).progress.trace == HandleLines(Start, CompleteLines(Text(chunks)), decode, t).trace
    ensures FeedAll(chunks, decode).progress.flights == HandleLines(Start, CompleteLines(Text(chunks)), decode, t).flights
    ensures Snapshot(FeedAll(chunks, decode).progress.written)
      == Snapshot(HandleLines(Start, CompleteLines(Text(chunks)), decode, t).written)
  {
    if |chunks| == 0 {
      return;
    }
    var init := chunks[..|chunks| - 1];
    var c := chunks[|chunks| - 1];
    ChunkingIrrelevant(init, decode, t);
    FeedAllBuffer(init, decode);
    var r := FeedAll(init, decode);
    var done := CompleteLines(Text(init));
    TextSplitStep(Text(init), c.text);
    var later := CompleteLines(r.buffer + c.text);
    assert CompleteLines(Text(chunks)) == done + later;
    HandleLinesAppend(Start, done, later, decode, t);
    HandleLinesTimeless(r.progress, HandleLines(Start, done, decode, t), later, decode, c.time, t);
  }

  lemma {:induction false} TerminatedAppend(a: seq<string>, b: seq<string>)
    ensures Terminated(a + b) == Terminated(a) + Terminated(b)
  {
    if |b| > 0 {
      assert (a + b)[..|a + b| - 1] == a + b[..|b| - 1];
      TerminatedAppend(a, b[..|b| - 1]);
    } else {
      assert a + b == a;
    }
  }

  // ---------------------------------------------------------------------
  // What the handled lines produce
  // ---------------------------------------------------------------------

  /** The line is a `data: ` line whose event is a completion. */
  predicate CompleteLine(line: string, decode: string -> Option<StreamEvent>)
  {
    StartsWith(line, DataPrefix) && decode(line[|DataPrefix|..]).Some? && decode(line[|DataPrefix|..]).value.complete
  }

  function CountComplete(lines: seq<string>, decode: string -> Option<StreamEvent>): nat
  {
    if |lines| == 0 then 0
    else CountComplete(lines[..|lines| - 1], decode) + (if CompleteLine(lines[|lines| - 1], decode) then 1 else 0)
  }

  function CountOnComplete(trace: seq<Callback>): nat
  {
    if |trace| == 0 then 0
    else CountOnComplete(trace[..|trace| - 1]) + (if trace[|trace| - 1].OnComplete? then 1 else 0)
  }

  /** The batches handed to `onFlights`, in order. */
  function Batches(trace: seq<Callback>): seq<seq<Flight>>
  {
    if |trace| == 0 then []
    else Batches(trace[..|trace| - 1]) + (if trace[|trace| - 1].OnFlights? then [trace[|trace| - 1].batch] else [])
  }

  lemma CountOnCompleteAppend(t: seq<Callback>, x: Callback)
    ensures CountOnComplete(t + [x]) == CountOnComplete(t) + (if x.OnComplete? then 1 else 0)
  {
    assert (t + [x])[..|t|] == t;
  }

  lemma BatchesAppend(t: seq<Callback>, x: Callback)
    ensures Batches(t + [x]) == Batches(t) + (if x.OnFlights? then [x.batch] else [])
  {
    assert (t + [x])[..|t|] == t;
  }

  predicate IsPrefix(a: seq<Flight>, b: seq<Flight>) {
    |a| <= |b| && b[..|a|] == a
  }

  /** Handling lines from the start, `onComplete` fires once per completion
      line: more than once when several arrive, and never when none does. */
  lemma {:induction false} CompletionsCounted(lines: seq<string>, decode: string -> Option<StreamEvent>, time: int)
    ensures CountOnComplete(HandleLines(Start, lines, decode, time).trace) == CountComplete(lines, decode)
    decreases |lines|
  {
    if |lines| > 0 {
      var init := lines[..|lines| - 1];
      var line := lines[|lines| - 1];
      CompletionsCounted(init, decode, time);
      var p := HandleLines(Start, init, decode, time);
      assert HandleLines(Start, lines, decode, time) == HandleLine(p, line, decode, time);
      LineCompletions(p, line, decode, time);
    }
  }

  /** One line adds one `onComplete` exactly when it is a completion line. */
  lemma LineCompletions(p: Progress, line: string, decode: string -> Option<StreamEvent>, time: int)
    ensures CountOnComplete(HandleLine(p, line, decode, time).trace)
      == CountOnComplete(p.trace) + (if CompleteLine(line, decode) then 1 else 0)
  {
    if StartsWith(line, DataPrefix) && decode(line[|DataPrefix|..]).Some? {
      var ev := decode(line[|DataPrefix|..]).value;
      if ev.complete {
        CountOnCompleteAppend(p.trace, OnComplete(ev.totalFlights, false));
      } else if ev.flights.Some? {
        CountOnCompleteAppend(p.trace, OnFlights(ev.flights.value));
      }
    }
  }

  /** Handling lines never calls `onError`, and every `onComplete` it makes
      says the result is not from the cache. */
  lemma {:induction false} NoErrorsFromLines(lines: seq<string>, decode: string -> Option<StreamEvent>, time: int)
    ensures forall c :: c in HandleLines(Start, lines, decode, time).trace ==> !c.OnError? && (c.OnComplete? ==> !c.fromCache)
    decreases |lines|
  {
    if |lines| > 0 {
      var init := lines[..|lines| - 1];
      NoErrorsFromLines(init, decode, time);
    }
  }

  /** `allFlights` is exactly the batches handed to `onFlights`, in order. */
  lemma {:induction false} FlightsAreBatches(lines: seq<string>, decode: string -> Option<StreamEvent>, time: int)
    ensures var q := HandleLines(Start, lines, decode, time);
      q.flights == Flatten(Batches(q.trace))
    decreases |lines|
  {
    if |lines| > 0 {
      var init := lines[..|lines| - 1];
      var line := lines[|lines| - 1];
      FlightsAreBatches(init, decode, time);
      var p := HandleLines(Start, init, decode, time);
      var q := HandleLines(Start, lines, decode, time);
      if StartsWith(line, DataPrefix) && decode(line[|DataPrefix|..]).Some? {
        var ev := decode(line[|DataPrefix|..]).value;
        if ev.complete {
          assert q.trace == p.trace + [OnComplete(ev.totalFlights, false)];
          BatchesAppend(p.trace, OnComplete(ev.totalFlights, false));
          assert Batches(q.trace) == Batches(p.trace);
        } else if ev.flights.Some? {
          BatchesAppend(p.trace, OnFlights(ev.flights.value));
          FlattenAppend(Batches(p.trace), ev.flights.value);
        }
      }
    }
  }

  /** The cache is written only on a completion line, and what it stores is
      the flights accumulated up to that line, a prefix of the final ones. */
  lemma {:induction false} WrittenIsPrefix(lines: seq<string>, decode: string -> Option<StreamEvent>, time: int)
    ensures var q := HandleLines(Start, lines, decode, time);
      && (q.written.Some? ==> IsPrefix(q.written.value.flights, q.flights))
      && (CountComplete(lines, decode) == 0 <==> q.written.None?)
    decreases |lines|
  {
    if |lines| > 0 {
      var init := lines[..|lines| - 1];
      var line := lines[|lines| - 1];
      WrittenIsPrefix(init, decode, time);
      var p := HandleLines(Start, init, decode, time);
      var q := HandleLines(Start, lines, decode, time);
      if p.written.Some? && q.flights != p.flights {
        assert q.flights[..|p.written.value.flights|] == p.flights[..|p.written.value.flights|];
      }
    }
  }

  lemma {:induction false} NoCompletionCounted(t: seq<Callback>)
    requires CountOnComplete(t) == 0
    ensures forall c :: c in t ==> !c.OnComplete?
  {
    if |t| > 0 {
      NoCompletionCounted(t[..|t| - 1]);
      assert t == t[..|t| - 1] + [t[|t| - 1]];
    }
  }

  /** A body whose complete lines hold no completion event ends with
      neither `onComplete` nor `onError` (unless a read fails), and nothing
      is written to the cache. */
  lemma StreamWithoutCompletion(chunks: seq<Chunk>, decode: string -> Option<StreamEvent>)
    requires CountComplete(CompleteLines(Text(chunks)), decode) == 0
    ensures forall c :: c in FeedAll(chunks, decode).progress.trace ==> !c.OnComplete? && !c.OnError?
    ensures FeedAll(chunks, decode).progress.written.None?
  {
    var lines := CompleteLines(Text(chunks));
    ChunkingIrrelevant(chunks, decode, 0);
    CompletionsCounted(lines, decode, 0);
    NoErrorsFromLines(lines, decode, 0);
    WrittenIsPrefix(lines, decode, 0);
    NoCompletionCounted(HandleLines(Start, lines, decode, 0).trace);
  }

  /** The key the search uses for its parameters. */
  function RequestKey(params: SearchParams): string
  {
    GetCacheKey(params.origins, params.destinations, params.tripType, params.departureDate, params.returnDate)
  }

  /** The `lines.forEach` of one read: handles each line in order,
      writing the flights so far to the cache under `key` at each
      completion event. */
  method HandleChunkLines(cache: CacheManager, key: string, lines: seq<string>,
                          decode: string -> Option<StreamEvent>, time: int,
                          trace0: seq<Callback>, flights0: seq<Flight>, ghost written0: Option<Stamp>,
                          ghost base: map<string, Stored>)
    returns (trace: seq<Callback>, allFlights: seq<Flight>, ghost written: Option<Stamp>)
    modifies cache
    requires cache.storage == Persist(base, key, written0)
    ensures Progress(trace, allFlights, written) == HandleLines(Progress(trace0, flights0, written0), lines, decode, time)
    ensures cache.storage == Persist(base, key, written)
  {
    trace, allFlights, written := trace0, flights0, written0;
    var j := 0;
    while j < |lines|
      invariant 0 <= j <= |lines|
      invariant Progress(trace, allFlights, written) == HandleLines(Progress(trace0, flights0, written0), lines[..j], decode, time)
      invariant cache.storage == Persist(base, key, written)
    {
      var line := lines[j];
      assert lines[..j + 1][..j] == lines[..j];
      if StartsWith(line, DataPrefix) {
        var event := decode(line[|DataPrefix|..]);
        if event.Some? {
          if event.value.complete {
            cache.SetCache(key, Payload(Some(allFlights)), time);
            written := Some(Stamp(allFlights, time));
            trace := trace + [OnComplete(event.value.totalFlights, false)];
          } else if event.value.flights.Some? {
            allFlights := allFlights + event.value.flights.value;
            trace := trace + [OnFlights(event.value.flights.value)];
          }
        }
      }
      j := j + 1;
    }
    assert lines[..|lines|] == lines;
  }

  /** The read loop, where `processText` calls `reader.read()` again until
      the body is done: appends each chunk to the buffer, keeps the
      unfinished last line and handles the finished ones. */
  method ReadBody(cache: CacheManager, key: string, chunks: seq<Chunk>, decode: string -> Option<StreamEvent>)
    returns (trace: seq<Callback>)
    modifies cache
    ensures trace == FeedAll(chunks, decode).progress.trace
    ensures cache.storage == Persist(old(cache.storage), key, FeedAll(chunks, decode).progress.written)
  {
    var buffer := "";
    var allFlights: seq<Flight> := [];
    trace := [];
    ghost var written: Option<Stamp> := None;
    ghost var base := cache.storage;
    var i := 0;
    while i < |chunks|
      invariant 0 <= i <= |chunks|
      invariant FeedAll(chunks[..i], decode) == Reader(buffer, Progress(trace, allFlights, written))
      invariant cache.storage == Persist(base, key, written)
    {
      assert chunks[..i + 1][..i] == chunks[..i];
      var time := chunks[i].time;
      buffer := buffer + chunks[i].text;
      var lines := Split(buffer, '\n');
      buffer := lines[|lines| - 1];
      lines := lines[..|lines| - 1];
      trace, allFlights, written := HandleChunkLines(cache, key, lines, decode, time, trace, allFlights, written, base);
      i := i + 1;
    }
    assert chunks[..|chunks|] == chunks;
  }

  /** `searchFlightsStreaming`: on a cache hit, report the cached flights
      without fetching; otherwise report a failed fetch as an error, or read
      the body chunk by chunk, handling each complete line, and report a
      failed read as an error after what was handled. */
  method SearchFlightsStreaming(cache: CacheManager, params: SearchParams, response: Response,
                                decode: string -> Option<StreamEvent>, now: int)
    returns (trace: seq<Callback>)
    modifies cache
    ensures var key := RequestKey(params);
      var hit := Read(old(cache.storage), key, now);
      var base := AfterRead(old(cache.storage), key, now);
      && (hit.Some? ==> trace == CachedCallbacks(hit.value) && cache.storage == old(cache.storage))
      && (hit.None? && response.Rejected? ==> trace == [OnError(response.message)] && cache.storage == base)
      && (hit.None? && response.NotOk? ==>
            trace == [OnError(StatusMessage(response.status, response.statusText))] && cache.storage == base)
      && (hit.None? && response.Body? ==>
            var r := FeedAll(response.chunks, decode);
            && trace == r.progress.trace + (if response.readFailure.Some? then [OnError(response.readFailure.value)] else [])
            && cache.storage == Persist(base, key, r.progress.written))
  {
    var key := GetCacheKey(params.origins, params.destinations, params.tripType, params.departureDate, params.returnDate);
    var cachedData := cache.GetCache(key, now);
    if cachedData.Some? {
      trace := [];
      if cachedData.value.flights.Some? {
        trace := trace + [OnFlights(cachedData.value.flights.value)];
      }
      var total := if cachedData.value.flights.Some? then |cachedData.value.flights.value| else 0;
      trace := trace + [OnComplete(total, true)];
      return;
    }
    match response {
      case Rejected(message) =>
        trace := [OnError(message)];
      case NotOk(status, statusText) =>
        trace := [OnError(StatusMessage(status, statusText))];
      case Body(chunks, readFailure) =>
        trace := ReadBody(cache, key, chunks, decode);
        if readFailure.Some? {
          trace := trace + [OnError(readFailure.value)];
        }
    }
  }

  /** A repeated streaming search within the hour after a completion event
      is answered from the cache: the flights gathered up to the last
      completion, then a completion marked as cached. */
  lemma RepeatAfterCompletion(s: map<string, Stored>, key: string, chunks: seq<Chunk>,
                              decode: string -> Option<StreamEvent>, later: int)
    requires FeedAll(chunks, decode).progress.written.Some?
    requires later - FeedAll(chunks, decode).progress.written.value.time < Ttl
    ensures var st := FeedAll(chunks, decode).progress.written.value;
      var s' := Persist(s, key, FeedAll(chunks, decode).progress.written);
      && Read(s', key, later) == Some(Payload(Some(st.flights)))
      && CachedCallbacks(Read(s', key, later).value) == [OnFlights(st.flights), OnComplete(|st.flights|, true)]
  {
    var st := FeedAll(chunks, decode).progress.written.value;
    WriteThenRead(s, key, Payload(Some(st.flights)), st.time, later);
  }

  // ---------------------------------------------------------------------
  // searchFlights (the non-streaming search)
  // ---------------------------------------------------------------------

  /** The outcome of the `fetch` and `response.json()` of a plain search;
      data carries the clock reading taken once the body has been parsed. */
  datatype Reply =
    | ReplyRejected(message: string)
    | ReplyNotOk(status: nat, statusText: string)
    | ReplyBadJson(message: string)
    | ReplyData(data: Payload, received: int)

  /** What `searchFlights` resolves to, or the error it rejects with. */
  datatype Outcome =
    | Found(data: Payload, fromCache: bool)
    | Failed(message: string)

  /** `searchFlights`: a live cache entry is returned as cached without a
      fetch; otherwise the server's data is stored under the key and
      returned as fresh, and any failure is passed on. */
  method SearchFlights(cache: CacheManager, params: SearchParams, reply: Reply, now: int)
    returns (r: Outcome)
    modifies cache
    ensures var key := RequestKey(params);
      var hit := Read(old(cache.storage), key, now);
      var base := AfterRead(old(cache.storage), key, now);
      && (hit.Some? ==> r == Found(hit.value, true) && cache.storage == old(cache.storage))
      && (hit.None? && reply.ReplyData? ==>
            r == Found(reply.data, false) && cache.storage == Write(base, key, reply.data, reply.received))
      && (hit.None? && !reply.ReplyData? ==> r.Failed? && cache.storage == base)
      && (hit.None? && reply.ReplyNotOk? ==> r == Failed(StatusMessage(reply.status, reply.statusText)))
  {
    var key := GetCacheKey(params.origins, params.destinations, params.tripType, params.departureDate, params.returnDate);
    var cachedData := cache.GetCache(key, now);
    if cachedData.Some? {
      return Found(cachedData.value, true);
    }
    match reply {
      case ReplyRejected(message) =>
        r := Failed(message);
      case ReplyNotOk(status, statusText) =>
        r := Failed(StatusMessage(status, statusText));
      case ReplyBadJson(message) =>
        r := Failed(message);
      case ReplyData(data, received) =>
        cache.SetCache(key, data, received);
        r := Found(data, false);
    }
  }
}
