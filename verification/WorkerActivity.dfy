/** The live activity feed parsed from a running worker's event stream. */
module WorkerActivity {
  import opened Text
  import opened LineStream
  import opened InsertionMap

  const MAX_EVENTS_PER_WORKER: nat := 300
  const MAX_TOOL_STARTS: nat := 256
  const MAX_LIVE_DELTAS_PER_WORKER: nat := 20_000

  datatype StartContext = StartContext(toolName: string, command: Option<string>, relatedPaths: seq<string>)

  /** `id` is empty when the event names no tool call. */
  datatype Kind =
    | ToolExecutionStart(id: string, start: StartContext)
    | ToolExecutionEnd(id: string)
    | OtherKind

  datatype Record = Record(kind: Kind, payload: string)

  datatype WorkEvent = WorkEvent(kind: string, summary: string, runId: Option<string>)

  /** Everything handed to the callbacks, in the order of the calls. */
  datatype Call =
    | OnNdjsonRecord(record: Record)
    | OnToolStart
    | OnLiveDelta(delta: string)
    | OnEvent(event: WorkEvent)

  /** The decoders this model leaves open. `liveDelta` yields nothing when no listener wants deltas. */
  datatype Codec = Codec(
    parse: string -> Option<Record>,
    liveDelta: Record -> Option<string>,
    normalize: (Record, Option<StartContext>) -> Option<WorkEvent>)

  type ToolStarts = seq<Entry<string, StartContext>>

  /** Makes room by dropping the oldest entry, then sets `id`. */
  function Remember(starts: ToolStarts, id: string, start: StartContext): ToolStarts {
    Set(if |starts| >= MAX_TOOL_STARTS then Remove(starts, starts[0].key) else starts, id, start)
  }

  // ---------- specification ----------

  datatype Feed = Feed(
    calls: seq<Call>,
    lastKey: string,
    eventCount: nat,
    liveDeltaCount: nat,
    toolStarts: ToolStarts,
    lastToolStart: Option<StartContext>)

  const EMPTY_FEED := Feed([], "", 0, 0, [], None)

  function Key(e: WorkEvent): string {
    e.kind + "\0" + e.summary + "\0" + if e.runId.Some? then e.runId.value else ""
  }

  function Observe(f: Feed, r: Record): Feed {
    f.(calls := f.calls + [OnNdjsonRecord(r)] + if r.kind.ToolExecutionStart? then [OnToolStart] else [])
  }

  function Stream(codec: Codec, f: Feed, r: Record): Feed {
    var delta := codec.liveDelta(r);
    if f.liveDeltaCount < MAX_LIVE_DELTAS_PER_WORKER && delta.Some? then
      f.(liveDeltaCount := f.liveDeltaCount + 1, calls := f.calls + [OnLiveDelta(delta.value)])
    else f
  }

  /** The start context that belongs to a record. */
  function ContextOf(f: Feed, r: Record): Option<StartContext> {
    match r.kind
    case ToolExecutionStart(_, start) => Some(start)
    case ToolExecutionEnd(id) =>
      var known := if id != "" then Get(f.toolStarts, id) else None;
      if known.Some? then known else f.lastToolStart
    case OtherKind => None
  }

  function Track(f: Feed, r: Record): Feed {
    match r.kind
    case ToolExecutionStart(id, start) =>
      f.(lastToolStart := Some(start),
         toolStarts := if id != "" then Remember(f.toolStarts, id, start) else f.toolStarts)
    case ToolExecutionEnd(id) =>
      f.(toolStarts := if id != "" then Remove(f.toolStarts, id) else f.toolStarts)
    case OtherKind => f
  }

  function Emit(f: Feed, next: Option<WorkEvent>): Feed {
    if next.None? || f.eventCount >= MAX_EVENTS_PER_WORKER || Key(next.value) == f.lastKey then f
    else f.(lastKey := Key(next.value), eventCount := f.eventCount + 1, calls := f.calls + [OnEvent(next.value)])
  }

  function AcceptRecord(codec: Codec, f: Feed, r: Record): Feed {
    var streamed := Stream(codec, Observe(f, r), r);
    Emit(Track(streamed, r), codec.normalize(r, ContextOf(streamed, r)))
  }

  function Decode(codec: Codec, line: string): Option<Record> {
    var trimmed := Trim(line);
    if trimmed == "" || trimmed[0] != '{' then None else codec.parse(trimmed)
  }

  function ParseLine(codec: Codec, f: Feed, line: string): Feed {
    var r := Decode(codec, line);
    if r.Some? then AcceptRecord(codec, f, r.value) else f
  }

  function Step(codec: Codec): (Feed, string) -> Feed {
    (f, line) => ParseLine(codec, f, line)
  }

  // ---------- the parser ----------

  class IncrementalWorkerActivityParser {
    const codec: Codec
    var pending: string
    var lastKey: string
    var eventCount: nat
    var liveDeltaCount: nat
    var toolStarts: ToolStarts
    var lastToolStart: Option<StartContext>
    var calls: seq<Call>  // what the listeners have been told

    constructor (codec: Codec)
      ensures this.codec == codec && View() == EMPTY_FEED && pending == ""
    {
      this.codec := codec;
      pending, lastKey, eventCount, liveDeltaCount := "", "", 0, 0;
      toolStarts, lastToolStart, calls := [], None, [];
    }

    function View(): Feed
      reads this
    {
      Feed(calls, lastKey, eventCount, liveDeltaCount, toolStarts, lastToolStart)
    }

    method Push(chunk: string)
      modifies this
      ensures Reader(View(), pending) == LineStream.Push(Step(codec), Reader(old(View()), old(pending)), chunk)
    {
      var lines := TakeLines(chunk);
      ParseLines(lines);
    }

    method TakeLines(chunk: string) returns (lines: seq<string>)
      modifies this`pending
      ensures var all := SplitLines(Retained(old(pending) + chunk));
              lines == Front(all) && pending == Last(all)
    {
      pending := pending + chunk;
      if |pending| > MAX_PENDING_LINE_CHARS {
        pending := pending[|pending| - MAX_PENDING_LINE_CHARS..];
      }
      lines := SplitLines(pending);
      pending := Last(lines);
      lines := Front(lines);
    }

    method ParseLines(lines: seq<string>)
      modifies this
      ensures View() == Fold(Step(codec), old(View()), lines) && pending == old(pending)
    {
      for i := 0 to |lines|
        invariant View() == Fold(Step(codec), old(View()), lines[..i]) && pending == old(pending)
      {
        assert Front(lines[..i + 1]) == lines[..i];
        Parse(lines[i]);
      }
      assert lines[..|lines|] == lines;
    }

    method Finish()
      modifies this
      ensures View() == LineStream.Finish(Step(codec), Reader(old(View()), old(pending))) && pending == ""
    {
      if pending != "" { Parse(pending); }
      pending := "";
    }

    method Parse(line: string)
      modifies this
      ensures View() == ParseLine(codec, old(View()), line) && pending == old(pending)
    {
      var raw := Decode(codec, line);
      if raw.None? { return; }
      NotifyObserver(raw.value);
      var startContext := TrackStart(raw.value);
      EmitNext(codec.normalize(raw.value, startContext));
    }

    method NotifyObserver(r: Record)
      modifies this
      ensures View() == Stream(codec, Observe(old(View()), r), r) && pending == old(pending)
    {
      calls := calls + [OnNdjsonRecord(r)];
      if r.kind.ToolExecutionStart? { calls := calls + [OnToolStart]; }
      assert calls == Observe(old(View()), r).calls;
      if liveDeltaCount < MAX_LIVE_DELTAS_PER_WORKER {
        var delta := codec.liveDelta(r);
        if delta.Some? {
          liveDeltaCount := liveDeltaCount + 1;
          calls := calls + [OnLiveDelta(delta.value)];
        }
      }
    }

    method EmitNext(next: Option<WorkEvent>)
      modifies this
      ensures View() == Emit(old(View()), next) && pending == old(pending)
    {
      if next.None? || eventCount >= MAX_EVENTS_PER_WORKER { return; }
      var key := Key(next.value);
      if key == lastKey { return; }
      lastKey := key;
      eventCount := eventCount + 1;
      calls := calls + [OnEvent(next.value)];
    }

    method TrackStart(r: Record) returns (startContext: Option<StartContext>)
      modifies this
      ensures View() == Track(old(View()), r) && pending == old(pending)
      ensures startContext == ContextOf(old(View()), r)
    {
      startContext := None;
      match r.kind {
        case ToolExecutionStart(id, start) =>
          startContext := Some(start);
          lastToolStart := startContext;
          if id != "" {
            if |toolStarts| >= MAX_TOOL_STARTS {
              toolStarts := Remove(toolStarts, toolStarts[0].key);
            }
            toolStarts := Set(toolStarts, id, start);
          }
        case ToolExecutionEnd(id) =>
          startContext := if id != "" then Get(toolStarts, id) else None;
          if startContext.None? { startContext := lastToolStart; }
          if id != "" { toolStarts := Remove(toolStarts, id); }
        case OtherKind =>
      }
    }
  }

  // ---------- properties ----------

  /** What the listeners are told does not depend on how the stream was cut. */
  lemma CallsAreChunkingIndependent(codec: Codec, a: seq<string>, b: seq<string>)
    requires Fits(a) && Fits(b) && Concat(a) == Concat(b)
    ensures Finish(Step(codec), PushAll(Step(codec), EMPTY_FEED, a))
            == Finish(Step(codec), PushAll(Step(codec), EMPTY_FEED, b))
            == Batch(Step(codec), EMPTY_FEED, Concat(a))
  {
    assert Trim("") == "";
    assert SkipsEmpty(Step(codec));
    ChunkingDoesNotMatter(Step(codec), EMPTY_FEED, a);
    ChunkingDoesNotMatter(Step(codec), EMPTY_FEED, b);
  }

  function WorkEvents(calls: seq<Call>): seq<WorkEvent> {
    if calls == [] then []
    else if Last(calls).OnEvent? then WorkEvents(Front(calls)) + [Last(calls).event]
    else WorkEvents(Front(calls))
  }

  function DeltaCount(calls: seq<Call>): nat {
    if calls == [] then 0 else DeltaCount(Front(calls)) + if Last(calls).OnLiveDelta? then 1 else 0
  }

  /** No event has the key of the one before it. */
  predicate NoRepeats(events: seq<WorkEvent>) {
    |events| < 2 || (NoRepeats(Front(events)) && Key(Last(Front(events))) != Key(Last(events)))
  }

  ghost predicate Bounded(f: Feed) {
    var events := WorkEvents(f.calls);
    && |events| == f.eventCount <= MAX_EVENTS_PER_WORKER
    && DeltaCount(f.calls) == f.liveDeltaCount <= MAX_LIVE_DELTAS_PER_WORKER
    && NoRepeats(events)
    && f.lastKey == (if events == [] then "" else Key(Last(events)))
    && |f.toolStarts| <= MAX_TOOL_STARTS && DistinctKeys(f.toolStarts)
  }

  /** Over every stream: the caps hold, call ids stay distinct, and no event repeats its predecessor. */
  lemma {:induction false} FeedStaysBounded(codec: Codec, lines: seq<string>)
    ensures Bounded(Fold(Step(codec), EMPTY_FEED, lines))
  {
    if lines != [] {
      FeedStaysBounded(codec, Front(lines));
      var f, r := Fold(Step(codec), EMPTY_FEED, Front(lines)), Decode(codec, Last(lines));
      if r.Some? { RecordKeepsBounded(codec, f, r.value); }
    }
  }

  lemma RecordKeepsBounded(codec: Codec, f: Feed, r: Record)
    requires Bounded(f)
    ensures Bounded(AcceptRecord(codec, f, r))
  {
    CallsAppend(f.calls, OnNdjsonRecord(r));
    CallsAppend(f.calls + [OnNdjsonRecord(r)], OnToolStart);
    assert f.calls + [OnNdjsonRecord(r)] + [] == f.calls + [OnNdjsonRecord(r)];
    var observed := Observe(f, r);
    StreamKeepsBounded(codec, observed, r);
    var streamed := Stream(codec, observed, r);
    TrackKeepsBounded(streamed, r);
    EmitKeepsBounded(Track(streamed, r), codec.normalize(r, ContextOf(streamed, r)));
  }

  lemma CallsAppend(calls: seq<Call>, c: Call)
    ensures WorkEvents(calls + [c]) == if c.OnEvent? then WorkEvents(calls) + [c.event] else WorkEvents(calls)
    ensures DeltaCount(calls + [c]) == DeltaCount(calls) + if c.OnLiveDelta? then 1 else 0
  {
    assert Front(calls + [c]) == calls;
  }

  lemma StreamKeepsBounded(codec: Codec, f: Feed, r: Record)
    requires Bounded(f)
    ensures Bounded(Stream(codec, f, r))
  {
    var delta := codec.liveDelta(r);
    if delta.Some? { CallsAppend(f.calls, OnLiveDelta(delta.value)); }
  }

  lemma TrackKeepsBounded(f: Feed, r: Record)
    requires Bounded(f)
    ensures Bounded(Track(f, r))
  {
    match r.kind
    case ToolExecutionStart(id, start) =>
      if id != "" {
        var room :=
          if |f.toolStarts| >= MAX_TOOL_STARTS then Remove(f.toolStarts, f.toolStarts[0].key) else f.toolStarts;
        if |f.toolStarts| >= MAX_TOOL_STARTS { RemoveProperties(f.toolStarts, f.toolStarts[0].key); }
        SetProperties(room, id, start);
      }
    case ToolExecutionEnd(id) =>
      if id != "" { RemoveProperties(f.toolStarts, id); }
    case OtherKind =>
  }

  lemma EmitKeepsBounded(f: Feed, next: Option<WorkEvent>)
    requires Bounded(f)
    ensures Bounded(Emit(f, next))
  {
    if next.Some? && f.eventCount < MAX_EVENTS_PER_WORKER && Key(next.value) != f.lastKey {
      CallsAppend(f.calls, OnEvent(next.value));
      assert Front(WorkEvents(f.calls) + [next.value]) == WorkEvents(f.calls);
    }
  }

  // ---------- what the listeners hear, looked up in the records ----------

  function Records(codec: Codec, lines: seq<string>): seq<Record> {
    if lines == [] then []
    else
      var before, r := Records(codec, Front(lines)), Decode(codec, Last(lines));
      if r.Some? then before + [r.value] else before
  }

  predicate StartsCall(r: Record, id: string) {
    r.kind.ToolExecutionStart? && r.kind.id == id
  }

  predicate EndsCall(r: Record, id: string) {
    r.kind.ToolExecutionEnd? && r.kind.id == id
  }

  /** The named call that has started and not ended. */
  function OpenStart(records: seq<Record>, id: string): Option<StartContext> {
    if records == [] then None
    else if StartsCall(Last(records), id) then Some(Last(records).kind.start)
    else if EndsCall(Last(records), id) then None
    else OpenStart(Front(records), id)
  }

  function LatestStart(records: seq<Record>): Option<StartContext> {
    if records == [] then None
    else if Last(records).kind.ToolExecutionStart? then Some(Last(records).kind.start)
    else LatestStart(Front(records))
  }

  /** The names of the open calls. */
  function OpenIds(records: seq<Record>): set<string> {
    if records == [] then {}
    else
      var before, kind := OpenIds(Front(records)), Last(records).kind;
      if kind.ToolExecutionStart? && kind.id != "" then before + {kind.id}
      else if kind.ToolExecutionEnd? && kind.id != "" then before - {kind.id}
      else before
  }

  /** Whenever a named call starts, fewer than 256 are open. */
  predicate Roomy(records: seq<Record>) {
    records == [] ||
    (Roomy(Front(records)) && (Last(records).kind.ToolExecutionStart? ==> |OpenIds(Front(records))| < 256))
  }

  /** The call that a record is about: a start's own, and an end's open one of its name, or else
      the latest that started. */
  function CallOf(before: seq<Record>, r: Record): Option<StartContext> {
    if r.kind.ToolExecutionStart? then Some(r.kind.start)
    else if r.kind.OtherKind? then None
    else if r.kind.id != "" && OpenStart(before, r.kind.id).Some? then OpenStart(before, r.kind.id)
    else LatestStart(before)
  }

  /** A record's delta is passed on, up to 20000 of them. */
  function DeltaCalls(codec: Codec, told: seq<Call>, r: Record): seq<Call> {
    var delta := codec.liveDelta(r);
    if delta.Some? && DeltaCount(told) < 20_000 then [OnLiveDelta(delta.value)] else []
  }

  /** Its event is passed on, up to 300 of them, unless it repeats the one before. */
  function EventCalls(told: seq<Call>, event: Option<WorkEvent>): seq<Call> {
    var events := WorkEvents(told);
    if event.None? || |events| >= 300 || Key(event.value) == (if events == [] then "" else Key(Last(events))) then []
    else [OnEvent(event.value)]
  }

  /** What a record is announced with, after what was told before. */
  function Announced(codec: Codec, told: seq<Call>, before: seq<Record>, r: Record): seq<Call> {
    [OnNdjsonRecord(r)]
    + (if r.kind.ToolExecutionStart? then [OnToolStart] else [])
    + DeltaCalls(codec, told, r)
    + EventCalls(told, codec.normalize(r, CallOf(before, r)))
  }

  function Told(codec: Codec, records: seq<Record>): seq<Call> {
    if records == [] then []
    else
      var told := Told(codec, Front(records));
      told + Announced(codec, told, Front(records), Last(records))
  }

  ghost predicate KnowsStarts(starts: ToolStarts, latest: Option<StartContext>, records: seq<Record>) {
    && DistinctKeys(starts)
    && (forall id :: HasKey(starts, id) <==> id in OpenIds(records))
    && (forall id :: id != "" ==> Get(starts, id) == OpenStart(records, id))
    && latest == LatestStart(records)
  }

  /** Over every stream in which fewer than 256 named calls are open whenever one starts: the
      listeners are told exactly what can be looked up in the records and in what they were told
      before. Every record is announced; a start is announced as one; up to 20000 deltas and 300
      events follow, none with the key of the event before it. */
  lemma {:induction false} CallsAreLookup(codec: Codec, lines: seq<string>)
    requires Roomy(Records(codec, lines))
    ensures var f, records := Fold(Step(codec), EMPTY_FEED, lines), Records(codec, lines);
            f.calls == Told(codec, records) && KnowsStarts(f.toolStarts, f.lastToolStart, records)
  {
    if lines == [] {
      assert forall id: string :: Get(EMPTY_FEED.toolStarts, id) == None;
    } else {
      var r := Decode(codec, Last(lines));
      var records := Records(codec, Front(lines));
      if r.Some? { assert Front(records + [r.value]) == records && Last(records + [r.value]) == r.value; }
      CallsAreLookup(codec, Front(lines));
      FeedStaysBounded(codec, Front(lines));
      if r.Some? { RecordIsAnnounced(codec, Fold(Step(codec), EMPTY_FEED, Front(lines)), records, r.value); }
    }
  }

  lemma RecordIsAnnounced(codec: Codec, f: Feed, records: seq<Record>, r: Record)
    requires Bounded(f) && KnowsStarts(f.toolStarts, f.lastToolStart, records) && f.calls == Told(codec, records)
    requires r.kind.ToolExecutionStart? ==> |OpenIds(records)| < 256
    ensures var next := AcceptRecord(codec, f, r);
            && next.calls == Told(codec, records + [r])
            && KnowsStarts(next.toolStarts, next.lastToolStart, records + [r])
  {
    SizeIs(f.toolStarts, OpenIds(records));
    StartsTracked(f, records, r);
    SameStarts(codec, f, r);
    SameContext(f, records, r);
    ToldOneMore(codec, f, records, r);
  }

  lemma SameContext(f: Feed, records: seq<Record>, r: Record)
    requires KnowsStarts(f.toolStarts, f.lastToolStart, records)
    ensures ContextOf(f, r) == CallOf(records, r)
  {
  }

  lemma ToldOneMore(codec: Codec, f: Feed, records: seq<Record>, r: Record)
    requires Bounded(f) && ContextOf(f, r) == CallOf(records, r) && f.calls == Told(codec, records)
    ensures AcceptRecord(codec, f, r).calls == Told(codec, records + [r])
  {
    assert Front(records + [r]) == records && Last(records + [r]) == r;
    CallsOfRecord(codec, f, r);
  }

  /** What accepting a record adds to the calls. */
  lemma CallsOfRecord(codec: Codec, f: Feed, r: Record)
    requires Bounded(f)
    ensures AcceptRecord(codec, f, r).calls
            == f.calls
               + ([OnNdjsonRecord(r)]
                  + (if r.kind.ToolExecutionStart? then [OnToolStart] else [])
                  + DeltaCalls(codec, f.calls, r)
                  + EventCalls(f.calls, codec.normalize(r, ContextOf(f, r))))
  {
    var observed := Observe(f, r);
    var streamed := Stream(codec, observed, r);
    var tracked := Track(streamed, r);
    var event := codec.normalize(r, ContextOf(f, r));
    assert ContextOf(streamed, r) == ContextOf(f, r);
    assert streamed.calls == observed.calls + DeltaCalls(codec, f.calls, r);
    TrackedAsBefore(streamed, r);
    EmittedCalls(tracked, event, f);
  }

  lemma TrackedAsBefore(f: Feed, r: Record)
    ensures var tracked := Track(f, r);
            tracked.calls == f.calls && tracked.lastKey == f.lastKey && tracked.eventCount == f.eventCount
  {
  }

  lemma EmittedCalls(f: Feed, event: Option<WorkEvent>, before: Feed)
    requires Bounded(before) && f.lastKey == before.lastKey && f.eventCount == before.eventCount
    ensures Emit(f, event).calls == f.calls + EventCalls(before.calls, event)
  {
  }

  /** Only tracking changes what is known of the calls that started. */
  lemma SameStarts(codec: Codec, f: Feed, r: Record)
    ensures AcceptRecord(codec, f, r).toolStarts == Track(f, r).toolStarts
    ensures AcceptRecord(codec, f, r).lastToolStart == Track(f, r).lastToolStart
  {
  }

  lemma {:induction false} SizeIs(m: ToolStarts, ids: set<string>)
    requires DistinctKeys(m) && forall id :: HasKey(m, id) <==> id in ids
    ensures |m| == |ids|
  {
    if m == [] {
      assert ids == {};
    } else {
      assert HasKey(m, m[0].key);
      SizeIs(m[1..], ids - {m[0].key});
    }
  }

  lemma StartsTracked(f: Feed, records: seq<Record>, r: Record)
    requires KnowsStarts(f.toolStarts, f.lastToolStart, records)
    requires r.kind.ToolExecutionStart? ==> |f.toolStarts| < MAX_TOOL_STARTS
    ensures KnowsStarts(Track(f, r).toolStarts, Track(f, r).lastToolStart, records + [r])
  {
    assert Front(records + [r]) == records && Last(records + [r]) == r;
    if !r.kind.OtherKind? && r.kind.id != "" {
      if r.kind.ToolExecutionStart? { AddedStart(f.toolStarts, r.kind.id, r.kind.start); }
      else { RemovedStart(f.toolStarts, r.kind.id); }
    }
  }

  lemma AddedStart(m: ToolStarts, id: string, start: StartContext)
    requires DistinctKeys(m)
    ensures var out := Set(m, id, start);
            && DistinctKeys(out)
            && (forall other :: HasKey(out, other) <==> other == id || HasKey(m, other))
            && (forall other :: Get(out, other) == if other == id then Some(start) else Get(m, other))
  {
    SetProperties(m, id, start);
    forall other ensures HasKey(Set(m, id, start), other) <==> other == id || HasKey(m, other) {
      SetHasKey(m, id, start, other);
    }
    forall other ensures Get(Set(m, id, start), other) == if other == id then Some(start) else Get(m, other) {
      GetSet(m, id, start, other);
    }
  }

  lemma RemovedStart(m: ToolStarts, id: string)
    requires DistinctKeys(m)
    ensures var out := Remove(m, id);
            && DistinctKeys(out)
            && (forall other :: HasKey(out, other) <==> other != id && HasKey(m, other))
            && (forall other :: Get(out, other) == if other == id then None else Get(m, other))
  {
    RemoveProperties(m, id);
    forall other ensures HasKey(Remove(m, id), other) <==> other != id && HasKey(m, other) {
      RemoveHasKey(m, id, other);
    }
    forall other ensures Get(Remove(m, id), other) == if other == id then None else Get(m, other) {
      GetRemove(m, id, other);
    }
  }

  lemma {:induction false} GetRemove<K, V>(m: seq<Entry<K, V>>, key: K, other: K)
    ensures Get(Remove(m, key), other) == if other == key then None else Get(m, other)
  {
    if m != [] { GetRemove(m[1..], key, other); }
  }

  function RunOf(e: WorkEvent): string {
    if e.runId.Some? then e.runId.value else ""
  }

  /** Two events repeat each other if they agree in kind, summary and run; and only then, unless
      one of these texts holds the separator. */
  lemma KeyExactly(a: WorkEvent, b: WorkEvent)
    requires '\0' !in a.kind && '\0' !in b.kind && '\0' !in a.summary && '\0' !in b.summary
    ensures Key(a) == Key(b) <==> a.kind == b.kind && a.summary == b.summary && RunOf(a) == RunOf(b)
  {
    if Key(a) == Key(b) {
      KeyParts(a);
      KeyParts(b);
      SameParts(a.kind, a.summary + "\0" + RunOf(a), b.kind, b.summary + "\0" + RunOf(b));
      SameParts(a.summary, RunOf(a), b.summary, RunOf(b));
    }
  }

  lemma KeyParts(e: WorkEvent)
    ensures Key(e) == e.kind + "\0" + (e.summary + "\0" + RunOf(e))
  {
  }

  function FirstNul(s: string): nat {
    if s == "" || s[0] == '\0' then 0 else 1 + FirstNul(s[1..])
  }

  lemma {:induction false} NulAfter(a: string, x: string)
    requires '\0' !in a
    ensures FirstNul(a + "\0" + x) == |a|
  {
    if a != "" {
      assert (a + "\0" + x)[1..] == a[1..] + "\0" + x;
      NulAfter(a[1..], x);
    }
  }

  lemma SameParts(a: string, x: string, b: string, y: string)
    requires '\0' !in a && '\0' !in b && a + "\0" + x == b + "\0" + y
    ensures a == b && x == y
  {
    NulAfter(a, x);
    NulAfter(b, y);
    assert (a + "\0" + x)[..|a|] == a && (b + "\0" + y)[..|b|] == b;
    assert (a + "\0" + x)[|a| + 1..] == x && (b + "\0" + y)[|b| + 1..] == y;
  }
}
