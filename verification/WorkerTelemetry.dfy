/** The batch and the incremental parser of a worker's event stream. */
module WorkerTelemetry {
  import opened Text
  import opened LineStream

  datatype Usage = Usage(
    input: int, output: int, cacheRead: int, cacheWrite: int, totalTokens: int, cost: real)

  datatype Activity = Activity(modelRounds: nat, toolCalls: nat, toolResults: nat)

  datatype ToolStart = ToolStart(toolName: string, command: Option<string>)

  /** A structured record of one failed tool execution. */
  datatype Observation = Observation(fingerprint: string, summary: string)

  /** An assistant message without usage figures carries the zero usage. */
  datatype Event =
    | Session
    | AgentEnd
    | AssistantMessage(usage: Usage, model: Option<string>)
    | OtherMessage
    | ToolExecutionStart(id: Option<string>, start: ToolStart)
    | ToolExecutionEnd(id: Option<string>, toolName: string, isError: bool)
    | OtherEvent

  /** The decoders this model leaves open: `JSON.parse` with the event's shape, and the failure classifier. */
  datatype Codec = Codec(
    parse: string -> Option<Event>,
    observe: (Event, ToolStart) -> Observation)

  datatype Status = Complete | Partial | Unavailable

  datatype Report = Report(
    status: Status,
    usage: Option<Usage>,
    activity: Option<Activity>,
    toolFailures: seq<Observation>,
    recovered: seq<string>,
    model: Option<string>)

  const ZERO_USAGE := Usage(0, 0, 0, 0, 0, 0.0)
  const ZERO_ACTIVITY := Activity(0, 0, 0)
  const MAX_FAILURES: nat := 100

  // ---------- specification ----------

  /** Everything the parsers accumulate. */
  datatype Acc = Acc(
    sawSessionHeader: bool,
    sawAgentEnd: bool,
    usage: Option<Usage>,
    activity: Option<Activity>,
    model: Option<string>,
    toolFailures: seq<Observation>,
    recovered: seq<string>,
    toolStarts: map<string, ToolStart>,
    lastToolStart: Option<ToolStart>,
    lastFailureByTool: map<string, Observation>)

  const EMPTY_ACC := Acc(false, false, None, None, None, [], [], map[], None, map[])

  function AddUsage(a: Usage, b: Usage): Usage {
    Usage(a.input + b.input, a.output + b.output, a.cacheRead + b.cacheRead,
          a.cacheWrite + b.cacheWrite, a.totalTokens + b.totalTokens, a.cost + b.cost)
  }

  function GetOr<T>(o: Option<T>, default: T): T {
    if o.Some? then o.value else default
  }

  function StartOf(acc: Acc, e: Event): ToolStart
    requires e.ToolExecutionEnd?
  {
    if e.id.Some? && e.id.value in acc.toolStarts then acc.toolStarts[e.id.value]
    else GetOr(acc.lastToolStart, ToolStart(e.toolName, None))
  }

  function ConsumeEnd(codec: Codec, acc: Acc, e: Event): Acc
    requires e.ToolExecutionEnd?
  {
    var activity := GetOr(acc.activity, ZERO_ACTIVITY);
    var start := StartOf(acc, e);
    var counted := acc.(
      activity := Some(activity.(toolResults := activity.toolResults + 1)),
      toolStarts := if e.id.Some? then acc.toolStarts - {e.id.value} else acc.toolStarts);
    if e.isError then
      var observation := codec.observe(e, start);
      counted.(
        toolFailures :=
          if |acc.toolFailures| < MAX_FAILURES then acc.toolFailures + [observation] else acc.toolFailures,
        lastFailureByTool := acc.lastFailureByTool[start.toolName := observation])
    else if start.toolName in acc.lastFailureByTool && |acc.recovered| < MAX_FAILURES then
      counted.(
        recovered := acc.recovered + [acc.lastFailureByTool[start.toolName].fingerprint],
        lastFailureByTool := acc.lastFailureByTool - {start.toolName})
    else counted
  }

  function ConsumeMessage(acc: Acc, e: Event): Acc
    requires e.AssistantMessage?
  {
    var activity := GetOr(acc.activity, ZERO_ACTIVITY);
    acc.(
      usage := Some(AddUsage(GetOr(acc.usage, ZERO_USAGE), e.usage)),
      activity := Some(activity.(modelRounds := activity.modelRounds + 1)),
      model := if e.model.Some? then e.model else acc.model)
  }

  function ConsumeStart(acc: Acc, e: Event): Acc
    requires e.ToolExecutionStart?
  {
    var activity := GetOr(acc.activity, ZERO_ACTIVITY);
    acc.(
      activity := Some(activity.(toolCalls := activity.toolCalls + 1)),
      lastToolStart := Some(e.start),
      toolStarts := if e.id.Some? then acc.toolStarts[e.id.value := e.start] else acc.toolStarts)
  }

  function ConsumeEvent(codec: Codec, acc: Acc, e: Event): Acc {
    if e.Session? then acc.(sawSessionHeader := true)
    else if !acc.sawSessionHeader then acc
    else
      match e
      case AgentEnd => acc.(sawAgentEnd := true)
      case AssistantMessage(_, _) => ConsumeMessage(acc, e)
      case ToolExecutionStart(_, _) => ConsumeStart(acc, e)
      case ToolExecutionEnd(_, _, _) => ConsumeEnd(codec, acc, e)
      case _ => acc
  }

  /** The event on a line, if the line holds one. */
  function Decode(codec: Codec, line: string): Option<Event> {
    var trimmed := Trim(line);
    if trimmed == "" || trimmed[0] != '{' then None else codec.parse(trimmed)
  }

  function ConsumeLine(codec: Codec, acc: Acc, line: string): Acc {
    var e := Decode(codec, line);
    if e.Some? then ConsumeEvent(codec, acc, e.value) else acc
  }

  function Step(codec: Codec): (Acc, string) -> Acc {
    (acc, line) => ConsumeLine(codec, acc, line)
  }

  /** The distinct elements in order of first occurrence: `[...new Set(xs)]`. */
  function Distinct(xs: seq<string>): seq<string> {
    if xs == [] then []
    else
      var front := Distinct(Front(xs));
      if Last(xs) in front then front else front + [Last(xs)]
  }

  function ReportOf(acc: Acc): Report {
    if !acc.sawSessionHeader then Report(Unavailable, None, None, acc.toolFailures, [], None)
    else Report(
      if acc.sawAgentEnd then Complete else Partial,
      acc.usage, acc.activity, acc.toolFailures, Distinct(acc.recovered), acc.model)
  }

  /** The report on a text that is all there. */
  function BatchReport(codec: Codec, output: string): Report {
    ReportOf(Batch(Step(codec), EMPTY_ACC, output))
  }

  lemma EmptyLineSkipped(codec: Codec)
    ensures SkipsEmpty(Step(codec))
  {
    assert Trim("") == "";
  }

  // ---------- the accumulator and the parsers ----------

  class TelemetryAccumulator {
    const codec: Codec
    var sawSessionHeader: bool
    var sawAgentEnd: bool
    var usage: Option<Usage>
    var activity: Option<Activity>
    var model: Option<string>
    var toolFailures: seq<Observation>
    var recovered: seq<string>
    var toolStarts: map<string, ToolStart>
    var lastToolStart: Option<ToolStart>
    var lastFailureByTool: map<string, Observation>

    constructor (codec: Codec)
      ensures this.codec == codec && View() == EMPTY_ACC
    {
      this.codec := codec;
      sawSessionHeader, sawAgentEnd := false, false;
      usage, activity, model := None, None, None;
      toolFailures, recovered := [], [];
      toolStarts, lastToolStart, lastFailureByTool := map[], None, map[];
    }

    function View(): Acc
      reads this
    {
      Acc(sawSessionHeader, sawAgentEnd, usage, activity, model,
          toolFailures, recovered, toolStarts, lastToolStart, lastFailureByTool)
    }

    method AcceptEvent(e: Event)
      modifies this
      ensures View() == ConsumeEvent(codec, old(View()), e)
    {
      if e.Session? {
        sawSessionHeader := true;
        return;
      }
      if !sawSessionHeader { return; }
      match e {
        case AgentEnd =>
          sawAgentEnd := true;
        case AssistantMessage(_, _) =>
          AcceptMessage(e);
        case ToolExecutionStart(_, _) =>
          AcceptStart(e);
        case ToolExecutionEnd(_, _, _) =>
          AcceptEnd(e);
        case _ =>
      }
    }

    method AcceptMessage(e: Event)
      requires e.AssistantMessage?
      modifies this
      ensures View() == ConsumeMessage(old(View()), e)
    {
      var total := GetOr(usage, ZERO_USAGE);
      var counts := GetOr(activity, ZERO_ACTIVITY);
      usage := Some(AddUsage(total, e.usage));
      activity := Some(counts.(modelRounds := counts.modelRounds + 1));
      if e.model.Some? { model := e.model; }
    }

    method AcceptStart(e: Event)
      requires e.ToolExecutionStart?
      modifies this
      ensures View() == ConsumeStart(old(View()), e)
    {
      activity := Some(GetOr(activity, ZERO_ACTIVITY));
      activity := Some(activity.value.(toolCalls := activity.value.toolCalls + 1));
      lastToolStart := Some(e.start);
      if e.id.Some? { toolStarts := toolStarts[e.id.value := e.start]; }
    }

    method AcceptEnd(e: Event)
      requires e.ToolExecutionEnd?
      modifies this
      ensures View() == ConsumeEnd(codec, old(View()), e)
    {
      activity := Some(GetOr(activity, ZERO_ACTIVITY));
      activity := Some(activity.value.(toolResults := activity.value.toolResults + 1));
      var start := StartOf(View(), e);
      if e.id.Some? { toolStarts := toolStarts - {e.id.value}; }
      var tool := start.toolName;
      if e.isError {
        var observation := codec.observe(e, start);
        if |toolFailures| < MAX_FAILURES { toolFailures := toolFailures + [observation]; }
        lastFailureByTool := lastFailureByTool[tool := observation];
      } else if tool in lastFailureByTool && |recovered| < MAX_FAILURES {
        recovered := recovered + [lastFailureByTool[tool].fingerprint];
        lastFailureByTool := lastFailureByTool - {tool};
      }
    }

    method AcceptLine(line: string)
      modifies this
      ensures View() == ConsumeLine(codec, old(View()), line)
    {
      var e := Decode(codec, line);
      if e.Some? { AcceptEvent(e.value); }
    }

    method AcceptLines(lines: seq<string>)
      modifies this
      ensures View() == Fold(Step(codec), old(View()), lines)
    {
      for i := 0 to |lines|
        invariant View() == Fold(Step(codec), old(View()), lines[..i])
      {
        assert Front(lines[..i + 1]) == lines[..i];
        AcceptLine(lines[i]);
      }
      assert lines[..|lines|] == lines;
    }
  }

  method ParseWorkerTelemetry(codec: Codec, output: string) returns (report: Report)
    ensures report == BatchReport(codec, output)
  {
    var acc := new TelemetryAccumulator(codec);
    acc.AcceptLines(SplitLines(output));
    report := ReportOf(acc.View());
  }

  class IncrementalWorkerTelemetryParser {
    const codec: Codec
    const acc: TelemetryAccumulator
    var pending: string

    ghost var origin: Acc     // what was accumulated when the current text began
    ghost var fed: string     // the text pushed since
    ghost var complete: bool  // no push has been over the limit

    ghost predicate Valid()
      reads this, acc
    {
      && acc.codec == codec
      && (complete ==>
            && acc.View() == Fold(Step(codec), origin, Front(SplitLines(fed)))
            && pending == Last(SplitLines(fed)))
    }

    constructor (codec: Codec)
      ensures Valid() && fresh(acc) && this.codec == codec
      ensures origin == EMPTY_ACC && fed == "" && complete
      ensures acc.View() == EMPTY_ACC && pending == ""
    {
      this.codec := codec;
      acc := new TelemetryAccumulator(codec);
      pending := "";
      origin, fed, complete := EMPTY_ACC, "", true;
    }

    method Push(chunk: string)
      requires Valid()
      modifies this, acc
      ensures Valid() && origin == old(origin) && fed == old(fed) + chunk
      ensures complete == (old(complete) && |old(pending)| + |chunk| <= MAX_PENDING_LINE_CHARS)
      ensures Reader(acc.View(), pending)
              == LineStream.Push(Step(codec), Reader(old(acc.View()), old(pending)), chunk)
    {
      if complete && |pending| + |chunk| <= MAX_PENDING_LINE_CHARS {
        PushDelivers(Step(codec), origin, fed, Reader(acc.View(), pending), chunk);
      }
      complete := complete && |pending| + |chunk| <= MAX_PENDING_LINE_CHARS;
      fed := fed + chunk;
      var lines := TakeLines(chunk);
      acc.AcceptLines(lines);
    }

    method TakeLines(chunk: string) returns (lines: seq<string>)
      modifies this`pending
      ensures var all := SplitLines(Retained(old(pending) + chunk));
              lines == Front(all) && pending == Last(all)
    {
      pending := pending + chunk;
      if |pending| > MAX_PENDING_LINE_CHARS {
        pending := pending[|pending| - MAX_PENDING_LINE_CHARS..];
      }
      lines := SplitLines(pending);
      pending := Last(lines);
      lines := Front(lines);
    }

    /** Reports on the complete lines so far and changes nothing. */
    method Snapshot() returns (report: Report)
      requires Valid()
      ensures report == ReportOf(acc.View())
      ensures complete && origin == EMPTY_ACC ==> report == BatchReport(codec, CompletePrefix(fed))
    {
      EmptyLineSkipped(codec);
      SplitCompletePrefix(fed);
      FoldLast(Step(codec), origin, SplitLines(CompletePrefix(fed)));
      report := ReportOf(acc.View());
    }

    method Finish() returns (report: Report)
      requires Valid()
      modifies this, acc
      ensures Valid() && pending == "" && fed == "" && complete == old(complete)
      ensures acc.View() == LineStream.Finish(Step(codec), Reader(old(acc.View()), old(pending)))
      ensures origin == acc.View() && report == ReportOf(acc.View())
      ensures old(complete && origin == EMPTY_ACC) ==> report == BatchReport(codec, old(fed))
    {
      EmptyLineSkipped(codec);
      FoldLast(Step(codec), origin, SplitLines(fed));
      if pending != "" { acc.AcceptLine(pending); }
      pending := "";
      origin, fed := acc.View(), "";
      report := ReportOf(acc.View());
    }
  }

  // ---------- properties ----------

  /** The report after any chunking is the batch report of the whole text. */
  lemma ChunkedReportIsBatchReport(codec: Codec, chunks: seq<string>)
    requires Fits(chunks)
    ensures ReportOf(Finish(Step(codec), PushAll(Step(codec), EMPTY_ACC, chunks)))
            == BatchReport(codec, Concat(chunks))
  {
    EmptyLineSkipped(codec);
    ChunkingDoesNotMatter(Step(codec), EMPTY_ACC, chunks);
  }

  /** Each report on the way is the batch report of the complete lines so far. */
  lemma SnapshotReportIsBatchReport(codec: Codec, chunks: seq<string>, k: nat)
    requires Fits(chunks) && k <= |chunks|
    ensures ReportOf(PushAll(Step(codec), EMPTY_ACC, chunks[..k]).state)
            == BatchReport(codec, CompletePrefix(Concat(chunks[..k])))
  {
    EmptyLineSkipped(codec);
    FitsPrefix(chunks, k);
    SnapshotIsBatchPrefix(Step(codec), EMPTY_ACC, chunks[..k]);
  }

  // ---------- what the report counts ----------

  predicate HasHeader(codec: Codec, lines: seq<string>) {
    lines != [] && (HasHeader(codec, Front(lines)) || Decode(codec, Last(lines)) == Some(Session))
  }

  /** The events that count: those after the first session header. */
  function Counted(codec: Codec, lines: seq<string>): seq<Event> {
    if lines == [] then []
    else
      var before, e := Counted(codec, Front(lines)), Decode(codec, Last(lines));
      if HasHeader(codec, Front(lines)) && e.Some? && e.value != Session then before + [e.value] else before
  }

  function Count(events: seq<Event>, p: Event -> bool): nat {
    if events == [] then 0 else Count(Front(events), p) + if p(Last(events)) then 1 else 0
  }

  function UsageOf(events: seq<Event>): Usage {
    if events == [] then ZERO_USAGE
    else if Last(events).AssistantMessage? then AddUsage(UsageOf(Front(events)), Last(events).usage)
    else UsageOf(Front(events))
  }

  /** The model named last. */
  function ModelOf(events: seq<Event>): Option<string> {
    if events == [] then None
    else if Last(events).AssistantMessage? && Last(events).model.Some? then Last(events).model
    else ModelOf(Front(events))
  }

  const ROUND: Event -> bool := (e: Event) => e.AssistantMessage?
  const CALL: Event -> bool := (e: Event) => e.ToolExecutionStart?
  const RESULT: Event -> bool := (e: Event) => e.ToolExecutionEnd?

  predicate Tallied(acc: Acc, events: seq<Event>) {
    var rounds, calls, results := Count(events, ROUND), Count(events, CALL), Count(events, RESULT);
    && acc.sawAgentEnd == (AgentEnd in events)
    && acc.usage == (if rounds == 0 then None else Some(UsageOf(events)))
    && acc.activity == (if rounds + calls + results == 0 then None else Some(Activity(rounds, calls, results)))
    && acc.model == ModelOf(events)
  }

  /** Over every stream the report is a tally of the events after the first session header:
      usage is their sum, rounds, calls and results are their numbers, the model is the last
      one named, and the stream is complete if its agent ended. */
  lemma {:induction false} ReportIsTally(codec: Codec, lines: seq<string>)
    ensures var acc := Fold(Step(codec), EMPTY_ACC, lines);
            acc.sawSessionHeader == HasHeader(codec, lines) && Tallied(acc, Counted(codec, lines))
  {
    if lines != [] {
      ReportIsTally(codec, Front(lines));
      var acc, events := Fold(Step(codec), EMPTY_ACC, Front(lines)), Counted(codec, Front(lines));
      var e := Decode(codec, Last(lines));
      if acc.sawSessionHeader && e.Some? && e.value != Session { EventTallied(codec, acc, events, e.value); }
    }
  }

  lemma EventTallied(codec: Codec, acc: Acc, events: seq<Event>, e: Event)
    requires acc.sawSessionHeader && e != Session && Tallied(acc, events)
    ensures Tallied(ConsumeEvent(codec, acc, e), events + [e]) && ConsumeEvent(codec, acc, e).sawSessionHeader
  {
    TallySteps(events, e);
    if e.ToolExecutionEnd? {
      EndTallied(codec, acc, events, e);
    } else if Count(events, ROUND) == 0 {
      NoRoundsNoUsage(events);
    }
  }

  lemma {:induction false} NoRoundsNoUsage(events: seq<Event>)
    requires Count(events, ROUND) == 0
    ensures UsageOf(events) == ZERO_USAGE
  {
    if events != [] { NoRoundsNoUsage(Front(events)); }
  }

  lemma TallySteps(events: seq<Event>, e: Event)
    ensures Count(events + [e], ROUND) == Count(events, ROUND) + if e.AssistantMessage? then 1 else 0
    ensures Count(events + [e], CALL) == Count(events, CALL) + if e.ToolExecutionStart? then 1 else 0
    ensures Count(events + [e], RESULT) == Count(events, RESULT) + if e.ToolExecutionEnd? then 1 else 0
    ensures UsageOf(events + [e]) == if e.AssistantMessage? then AddUsage(UsageOf(events), e.usage) else UsageOf(events)
    ensures ModelOf(events + [e]) == if e.AssistantMessage? && e.model.Some? then e.model else ModelOf(events)
    ensures AgentEnd in events + [e] <==> AgentEnd in events || e == AgentEnd
  {
    assert Front(events + [e]) == events && Last(events + [e]) == e;
  }

  lemma EndTallied(codec: Codec, acc: Acc, events: seq<Event>, e: Event)
    requires e.ToolExecutionEnd? && Tallied(acc, events)
    ensures Tallied(ConsumeEnd(codec, acc, e), events + [e])
    ensures ConsumeEnd(codec, acc, e).sawSessionHeader == acc.sawSessionHeader
  {
    TallySteps(events, e);
    var next := ConsumeEnd(codec, acc, e);
    assert next.usage == acc.usage && next.model == acc.model && next.sawAgentEnd == acc.sawAgentEnd;
  }

  // ---------- streams beyond the limit ----------

  /** Over every stream: the report at the end is that of the lines received, and it calls the
      stream unavailable if and only if none of those is a session header. */
  lemma ReportReadsReceived(codec: Codec, chunks: seq<string>)
    ensures ReportOf(Finish(Step(codec), PushAll(Step(codec), EMPTY_ACC, chunks)))
            == ReportOf(Fold(Step(codec), EMPTY_ACC, Received(chunks)))
    ensures ReportOf(Finish(Step(codec), PushAll(Step(codec), EMPTY_ACC, chunks))).status == Unavailable
            <==> !HasHeader(codec, Received(chunks))
    ensures BatchReport(codec, Concat(chunks)).status == Unavailable <==> !HasHeader(codec, SplitLines(Concat(chunks)))
  {
    EmptyLineSkipped(codec);
    FinishReadsReceived(Step(codec), EMPTY_ACC, chunks);
    ReportIsTally(codec, Received(chunks));
    ReportIsTally(codec, SplitLines(Concat(chunks)));
  }

  lemma ReceivedAtOnce(dropped: string, kept: string)
    requires |kept| == MAX_PENDING_LINE_CHARS
    ensures Received([dropped + kept]) == SplitLines(kept) && Concat([dropped + kept]) == dropped + kept
  {
    var text := dropped + kept;
    assert Front([text]) == [] && "" + text == text;
    assert text[|text| - |kept|..] == kept;
    assert Receive([]) == Reader([], "") && Retained(text) == kept;
    FrontLast(SplitLines(kept));
    assert [] + SplitLines(kept) == SplitLines(kept);
  }

  /** A first chunk over the limit loses the session header if and only if what is retained of
      it holds none: then the stream is reported unavailable although it has a header, and the
      batch parser reports on it. */
  lemma OverlongChunkLosesHeader(codec: Codec, dropped: string, kept: string)
    requires |kept| == MAX_PENDING_LINE_CHARS && HasHeader(codec, SplitLines(dropped + kept))
    ensures BatchReport(codec, dropped + kept).status != Unavailable
    ensures ReportOf(Finish(Step(codec), PushAll(Step(codec), EMPTY_ACC, [dropped + kept]))).status == Unavailable
            <==> !HasHeader(codec, SplitLines(kept))
  {
    ReceivedAtOnce(dropped, kept);
    ReportReadsReceived(codec, [dropped + kept]);
  }

  lemma {:induction false} CharsOfLines(text: string, c: char, i: nat)
    requires c !in text && i < |SplitLines(text)|
    ensures c !in SplitLines(text)[i]
  {
    if text == "" {
    } else if text[0] == '\n' {
      if i > 0 { CharsOfLines(text[1..], c, i - 1); }
    } else if text[0] == '\r' && |text| > 1 && text[1] == '\n' {
      if i > 0 { CharsOfLines(text[2..], c, i - 1); }
    } else {
      CharsOfLines(text[1..], c, i);
    }
  }

  lemma {:induction false} TrimStartWithout(s: string, c: char)
    requires c !in s
    ensures c !in TrimStart(s)
  {
    if s != "" && IsSpace(s[0]) { TrimStartWithout(s[1..], c); }
  }

  lemma {:induction false} TrimEndWithout(s: string, c: char)
    requires c !in s
    ensures c !in TrimEnd(s)
  {
    if s != "" && IsSpace(s[|s| - 1]) { TrimEndWithout(s[..|s| - 1], c); }
  }

  lemma {:induction false} NoBraceNoHeader(codec: Codec, lines: seq<string>)
    requires forall i :: 0 <= i < |lines| ==> '{' !in lines[i]
    ensures !HasHeader(codec, lines)
  {
    if lines != [] {
      NoBraceNoHeader(codec, Front(lines));
      TrimStartWithout(Last(lines), '{');
      TrimEndWithout(TrimStart(Last(lines)), '{');
    }
  }

  lemma {:induction false} HeaderStays(codec: Codec, a: seq<string>, b: seq<string>)
    requires HasHeader(codec, a)
    ensures HasHeader(codec, a + b)
  {
    if b == [] {
      assert a + b == a;
    } else {
      assert Front(a + b) == a + Front(b);
      HeaderStays(codec, a, Front(b));
    }
  }

  /** So it is for a header line that any text of the limit's length without a brace follows
      in the same chunk. */
  lemma HeaderBeforeNoiseIsLost(codec: Codec, header: string, noise: string)
    requires Decode(codec, header) == Some(Session) && '\n' !in header
    requires |noise| == MAX_PENDING_LINE_CHARS && '{' !in noise
    ensures var text := header + "\n" + noise;
            && ReportOf(Finish(Step(codec), PushAll(Step(codec), EMPTY_ACC, [text]))).status == Unavailable
            && (Last(header) != '\r' ==> BatchReport(codec, text).status != Unavailable)
  {
    forall i | 0 <= i < |SplitLines(noise)| ensures '{' !in SplitLines(noise)[i] {
      CharsOfLines(noise, '{', i);
    }
    NoBraceNoHeader(codec, SplitLines(noise));
    ReceivedAtOnce(header + "\n", noise);
    ReportReadsReceived(codec, [header + "\n" + noise]);
    if Last(header) != '\r' {
      SplitHeader(header, noise);
      assert Front([header]) == [];
      HeaderStays(codec, [header], SplitLines(noise));
    }
  }

  lemma {:induction false} SplitHeader(header: string, rest: string)
    requires '\n' !in header && (header == "" || Last(header) != '\r')
    ensures SplitLines(header + "\n" + rest) == [header] + SplitLines(rest)
  {
    var text := header + "\n" + rest;
    if header == "" {
      assert text[1..] == rest;
    } else {
      assert text[1..] == header[1..] + "\n" + rest;
      SplitHeader(header[1..], rest);
      assert header == [header[0]] + header[1..];
    }
  }

  // ---------- failures ----------

  /** The failure one line adds to what is known from the lines before it. */
  function NewFailure(codec: Codec, acc: Acc, line: string): seq<Observation> {
    var e := Decode(codec, line);
    if acc.sawSessionHeader && e.Some? && e.value.ToolExecutionEnd? && e.value.isError
    then [codec.observe(e.value, StartOf(acc, e.value))] else []
  }

  /** The failed tool executions of a stream, in order, as they were observed. */
  function Failures(codec: Codec, lines: seq<string>): seq<Observation> {
    if lines == [] then []
    else Failures(codec, Front(lines)) +
         NewFailure(codec, Fold(Step(codec), EMPTY_ACC, Front(lines)), Last(lines))
  }

  /** Some failure carries this fingerprint. */
  predicate WasObserved(failures: seq<Observation>, fingerprint: string) {
    failures != [] && (Last(failures).fingerprint == fingerprint || WasObserved(Front(failures), fingerprint))
  }

  ghost predicate Accounted(acc: Acc, failures: seq<Observation>) {
    && acc.toolFailures == (if |failures| < MAX_FAILURES then failures else failures[..MAX_FAILURES])
    && (forall i :: 0 <= i < |acc.recovered| ==> WasObserved(failures, acc.recovered[i]))
    && (forall t :: t in acc.lastFailureByTool ==> WasObserved(failures, acc.lastFailureByTool[t].fingerprint))
    && |acc.recovered| + |acc.lastFailureByTool| <= |failures|
    && |acc.recovered| <= MAX_FAILURES
    && |failures| <= Results(acc)
  }

  function Results(acc: Acc): nat {
    if acc.activity.Some? then acc.activity.value.toolResults else 0
  }

  /** Over every stream: the reported failures are its first hundred, each recovery
      names a failure that was observed, and a failure is recovered at most once. */
  lemma {:induction false} FailuresAccountedFor(codec: Codec, lines: seq<string>)
    ensures Accounted(Fold(Step(codec), EMPTY_ACC, lines), Failures(codec, lines))
  {
    if lines != [] {
      FailuresAccountedFor(codec, Front(lines));
      LineAccountedFor(codec, Fold(Step(codec), EMPTY_ACC, Front(lines)), Failures(codec, Front(lines)), Last(lines));
    }
  }

  lemma LineAccountedFor(codec: Codec, acc: Acc, failures: seq<Observation>, line: string)
    requires Accounted(acc, failures)
    ensures Accounted(ConsumeLine(codec, acc, line), failures + NewFailure(codec, acc, line))
  {
    var e := Decode(codec, line);
    if acc.sawSessionHeader && e.Some? && e.value.ToolExecutionEnd? && e.value.isError {
      FailureCounted(codec, acc, failures, e.value);
    } else {
      assert failures + NewFailure(codec, acc, line) == failures;
      if acc.sawSessionHeader && e.Some? && e.value.ToolExecutionEnd? {
        SuccessCounted(codec, acc, failures, e.value);
      } else {
        OthersCounted(codec, acc, failures, line);
      }
    }
  }

  lemma OthersCounted(codec: Codec, acc: Acc, failures: seq<Observation>, line: string)
    requires Accounted(acc, failures)
    requires var e := Decode(codec, line);
             e.Some? ==> !acc.sawSessionHeader || !e.value.ToolExecutionEnd?
    ensures Accounted(ConsumeLine(codec, acc, line), failures)
  {
    var next := ConsumeLine(codec, acc, line);
    assert next.toolFailures == acc.toolFailures && next.recovered == acc.recovered;
    assert next.lastFailureByTool == acc.lastFailureByTool && Results(next) == Results(acc);
  }

  lemma FailureCounted(codec: Codec, acc: Acc, failures: seq<Observation>, e: Event)
    requires Accounted(acc, failures) && e.ToolExecutionEnd? && e.isError
    ensures Accounted(ConsumeEnd(codec, acc, e), failures + [codec.observe(e, StartOf(acc, e))])
  {
    var start := StartOf(acc, e);
    var o := codec.observe(e, start);
    assert Front(failures + [o]) == failures;
    MapGrowth(acc.lastFailureByTool, start.toolName, o);
  }

  lemma SuccessCounted(codec: Codec, acc: Acc, failures: seq<Observation>, e: Event)
    requires Accounted(acc, failures) && e.ToolExecutionEnd? && !e.isError
    ensures Accounted(ConsumeEnd(codec, acc, e), failures)
  {
    var tool := StartOf(acc, e).toolName;
    if tool in acc.lastFailureByTool {
      MapShrink(acc.lastFailureByTool, tool);
    }
  }

  lemma MapGrowth<V>(m: map<string, V>, k: string, v: V)
    ensures |m[k := v]| <= |m| + 1
  {
    assert m[k := v].Keys == m.Keys + {k};
  }

  lemma MapShrink<V>(m: map<string, V>, k: string)
    requires k in m
    ensures |m - {k}| == |m| - 1
  {
    assert (m - {k}).Keys == m.Keys - {k};
  }

  // ---------- the report, looked up in the events ----------

  /** The call with this id that has started and not ended. */
  function OpenCall(events: seq<Event>, id: string): Option<ToolStart> {
    if events == [] then None
    else if Last(events).ToolExecutionStart? && Last(events).id == Some(id) then Some(Last(events).start)
    else if Last(events).ToolExecutionEnd? && Last(events).id == Some(id) then None
    else OpenCall(Front(events), id)
  }

  function LatestCall(events: seq<Event>): Option<ToolStart> {
    if events == [] then None
    else if Last(events).ToolExecutionStart? then Some(Last(events).start)
    else LatestCall(Front(events))
  }

  /** The call that an end belongs to: the open one of its id, or else the latest, or else all
      that is known is the tool it names. */
  function CallOf(before: seq<Event>, e: Event): ToolStart
    requires e.ToolExecutionEnd?
  {
    if e.id.Some? && OpenCall(before, e.id.value).Some? then OpenCall(before, e.id.value).value
    else if LatestCall(before).Some? then LatestCall(before).value
    else ToolStart(e.toolName, None)
  }

  /** Every failed execution, as observed with its call. */
  function Observed(codec: Codec, events: seq<Event>): seq<Observation> {
    if events == [] then []
    else
      var before, e := Observed(codec, Front(events)), Last(events);
      if e.ToolExecutionEnd? && e.isError then before + [codec.observe(e, CallOf(Front(events), e))] else before
  }

  /** The tool's last failure, unless the tool has succeeded since. Once a hundred recoveries
      are known a success counts for nothing. */
  function OpenFailure(codec: Codec, events: seq<Event>, tool: string): Option<Observation> {
    if events == [] then None
    else
      var before, e := Front(events), Last(events);
      if !e.ToolExecutionEnd? || CallOf(before, e).toolName != tool then OpenFailure(codec, before, tool)
      else if e.isError then Some(codec.observe(e, CallOf(before, e)))
      else if |Recoveries(codec, before)| < MAX_FAILURES then None
      else OpenFailure(codec, before, tool)
  }

  /** The failures that a success of the same tool followed, up to a hundred. */
  function Recoveries(codec: Codec, events: seq<Event>): seq<string> {
    if events == [] then []
    else
      var before, e := Front(events), Last(events);
      var known := Recoveries(codec, before);
      if e.ToolExecutionEnd? && !e.isError && |known| < MAX_FAILURES
         && OpenFailure(codec, before, CallOf(before, e).toolName).Some?
      then known + [OpenFailure(codec, before, CallOf(before, e).toolName).value.fingerprint]
      else known
  }

  ghost predicate KnowsCalls(acc: Acc, events: seq<Event>) {
    && (forall id :: id in acc.toolStarts <==> OpenCall(events, id).Some?)
    && (forall id :: id in acc.toolStarts ==> OpenCall(events, id) == Some(acc.toolStarts[id]))
    && acc.lastToolStart == LatestCall(events)
  }

  ghost predicate KnowsFailures(codec: Codec, acc: Acc, events: seq<Event>) {
    && (forall t :: t in acc.lastFailureByTool <==> OpenFailure(codec, events, t).Some?)
    && (forall t :: t in acc.lastFailureByTool ==> OpenFailure(codec, events, t) == Some(acc.lastFailureByTool[t]))
    && acc.recovered == Recoveries(codec, events)
    && acc.toolFailures == FirstHundred(Observed(codec, events))
  }

  function FirstHundred(failures: seq<Observation>): seq<Observation> {
    if |failures| <= 100 then failures else failures[..100]
  }

  lemma CallsStep(codec: Codec, acc: Acc, events: seq<Event>, e: Event)
    requires acc.sawSessionHeader && e != Session && KnowsCalls(acc, events)
    ensures KnowsCalls(ConsumeEvent(codec, acc, e), events + [e])
  {
    assert Front(events + [e]) == events && Last(events + [e]) == e;
  }

  lemma FailuresStep(codec: Codec, acc: Acc, events: seq<Event>, e: Event)
    requires acc.sawSessionHeader && e != Session && KnowsCalls(acc, events) && KnowsFailures(codec, acc, events)
    ensures KnowsFailures(codec, ConsumeEvent(codec, acc, e), events + [e])
  {
    assert Front(events + [e]) == events && Last(events + [e]) == e;
    if e.ToolExecutionEnd? {
      assert StartOf(acc, e) == CallOf(events, e);
      EndStep(codec, acc, events, e);
    } else {
      var next := ConsumeEvent(codec, acc, e);
      assert next.recovered == acc.recovered && next.lastFailureByTool == acc.lastFailureByTool;
    }
  }

  lemma EndStep(codec: Codec, acc: Acc, events: seq<Event>, e: Event)
    requires e.ToolExecutionEnd? && StartOf(acc, e) == CallOf(events, e) && KnowsFailures(codec, acc, events)
    ensures KnowsFailures(codec, ConsumeEnd(codec, acc, e), events + [e])
  {
    assert Front(events + [e]) == events && Last(events + [e]) == e;
  }

  lemma {:induction false} FoldKnows(codec: Codec, lines: seq<string>)
    ensures var acc, events := Fold(Step(codec), EMPTY_ACC, lines), Counted(codec, lines);
            KnowsCalls(acc, events) && KnowsFailures(codec, acc, events)
  {
    if lines != [] {
      FoldKnows(codec, Front(lines));
      ReportIsTally(codec, Front(lines));
      var acc, events := Fold(Step(codec), EMPTY_ACC, Front(lines)), Counted(codec, Front(lines));
      var e := Decode(codec, Last(lines));
      if acc.sawSessionHeader && e.Some? && e.value != Session {
        CallsStep(codec, acc, events, e.value);
        FailuresStep(codec, acc, events, e.value);
      }
    }
  }

  /** One figure, summed over the assistant's messages. */
  function Total(events: seq<Event>, figure: Usage -> real): real {
    if events == [] then 0.0
    else Total(Front(events), figure) + if Last(events).AssistantMessage? then figure(Last(events).usage) else 0.0
  }

  const INPUT: Usage -> real := (u: Usage) => u.input as real
  const OUTPUT: Usage -> real := (u: Usage) => u.output as real
  const CACHE_READ: Usage -> real := (u: Usage) => u.cacheRead as real
  const CACHE_WRITE: Usage -> real := (u: Usage) => u.cacheWrite as real
  const TOTAL_TOKENS: Usage -> real := (u: Usage) => u.totalTokens as real
  const COST: Usage -> real := (u: Usage) => u.cost

  /** The usage of a stream is the sum of each figure by itself. */
  lemma {:induction false} UsageIsSum(events: seq<Event>)
    ensures var u := UsageOf(events);
            && INPUT(u) == Total(events, INPUT) && OUTPUT(u) == Total(events, OUTPUT)
            && CACHE_READ(u) == Total(events, CACHE_READ) && CACHE_WRITE(u) == Total(events, CACHE_WRITE)
            && TOTAL_TOKENS(u) == Total(events, TOTAL_TOKENS) && COST(u) == Total(events, COST)
  {
    if events != [] { UsageIsSum(Front(events)); }
  }

  /** These are the same texts, each once, in the order in which they first appear. */
  ghost predicate OnceEach(once: seq<string>, all: seq<string>) {
    && (forall x :: x in once <==> x in all)
    && exists at: seq<nat> ::
         && |at| == |once| && (forall i, j :: 0 <= i < j < |at| ==> at[i] < at[j])
         && forall i :: 0 <= i < |at| ==> at[i] < |all| && once[i] == all[at[i]] && once[i] !in all[..at[i]]
  }

  /** Over every stream the report is what can be looked up in the events after the first session
      header: complete if the agent ended, the sums and numbers of `Tallied`, the first hundred
      failures as observed, and each recovered fingerprint once. */
  lemma ReportIsLookup(codec: Codec, lines: seq<string>)
    ensures var report, events := ReportOf(Fold(Step(codec), EMPTY_ACC, lines)), Counted(codec, lines);
            if !HasHeader(codec, lines) then report == Report(Unavailable, None, None, [], [], None)
            else
              var rounds, calls, results := Count(events, ROUND), Count(events, CALL), Count(events, RESULT);
              && report.status == (if AgentEnd in events then Complete else Partial)
              && report.usage == (if rounds == 0 then None else Some(UsageOf(events)))
              && report.activity
                 == (if rounds + calls + results == 0 then None else Some(Activity(rounds, calls, results)))
              && report.model == ModelOf(events)
              && report.toolFailures == FirstHundred(Observed(codec, events))
              && OnceEach(report.recovered, Recoveries(codec, events))
  {
    ReportIsTally(codec, lines);
    FoldKnows(codec, lines);
    NoEventsBefore(codec, lines);
    var at := DistinctMeans(Recoveries(codec, Counted(codec, lines)));
  }

  lemma {:induction false} NoEventsBefore(codec: Codec, lines: seq<string>)
    ensures !HasHeader(codec, lines) ==> Counted(codec, lines) == []
  {
    if lines != [] { NoEventsBefore(codec, Front(lines)); }
  }

  lemma {:induction false} DistinctMeans(xs: seq<string>) returns (at: seq<nat>)
    ensures forall x :: x in Distinct(xs) <==> x in xs
    ensures |at| == |Distinct(xs)| && (forall i, j :: 0 <= i < j < |at| ==> at[i] < at[j])
    ensures forall i :: 0 <= i < |at| ==>
              at[i] < |xs| && Distinct(xs)[i] == xs[at[i]] && Distinct(xs)[i] !in xs[..at[i]]
  {
    at := [];
    if xs != [] {
      at := DistinctMeans(Front(xs));
      assert xs == Front(xs) + [Last(xs)];
      forall i | 0 <= i < |at| ensures xs[..at[i]] == Front(xs)[..at[i]] {}
      if Last(xs) !in Distinct(Front(xs)) { at := at + [|xs| - 1]; }
    }
  }
}
