/** Run metrics and the bounded list of per-issue metrics. */
module IssueMetrics {
  import opened Sets
  import opened Text

  const MAX_ISSUE_METRICS: nat := 20
  const BUDGET_POLICY_VERSION: nat := 1

  datatype Usage = Usage(input: int, output: int, cacheRead: int, cacheWrite: int, totalTokens: int, cost: real)

  datatype Totals = Totals(
    usage: Usage, sessions: int, prompts: int, workerTurns: int, controllerTransitions: int,
    hostSessionReplacements: int, modelDurationMs: int, telemetryUnavailable: int)

  datatype Disposition = Active | Completed | DeferredIssue | BlockedIssue | YieldedIssue | LeasedElsewhere

  datatype Metric = Metric(
    issue: int, totals: Totals, disposition: Disposition, reason: Option<string>,
    transitions: nat, workerLaunches: nat, headAdvancingCommits: nat, verificationCycles: nat, wallClockMs: int,
    planTasksAtSelection: Option<int>, planTasksRemaining: Option<int>,
    budgetPolicyVersion: Option<nat>, baselineTokens: Option<int>, baselineTransitions: Option<int>,
    baselineWallClockMs: Option<int>,
    repeats: map<string, nat>)

  function Max0(n: int): int {
    if n < 0 then 0 else n
  }

  function UsageDelta(after: Usage, before: Usage): Usage {
    Usage(Max0(after.input - before.input), Max0(after.output - before.output),
          Max0(after.cacheRead - before.cacheRead), Max0(after.cacheWrite - before.cacheWrite),
          Max0(after.totalTokens - before.totalTokens),
          if after.cost < before.cost then 0.0 else after.cost - before.cost)
  }

  function AddUsage(a: Usage, b: Usage): Usage {
    Usage(a.input + b.input, a.output + b.output, a.cacheRead + b.cacheRead, a.cacheWrite + b.cacheWrite,
          a.totalTokens + b.totalTokens, a.cost + b.cost)
  }

  function NoUsage(): Usage {
    Usage(0, 0, 0, 0, 0, 0.0)
  }

  function Zero(): Totals {
    Totals(NoUsage(), 0, 0, 0, 0, 0, 0, 0)
  }

  datatype Counter =
    | Input | Output | CacheRead | CacheWrite | TotalTokens | Cost | Sessions | Prompts | WorkerTurns
    | ControllerTransitions | HostSessionReplacements | ModelDuration | TelemetryUnavailable

  function Value(t: Totals, c: Counter): real {
    match c
    case Input => t.usage.input as real
    case Output => t.usage.output as real
    case CacheRead => t.usage.cacheRead as real
    case CacheWrite => t.usage.cacheWrite as real
    case TotalTokens => t.usage.totalTokens as real
    case Cost => t.usage.cost
    case Sessions => t.sessions as real
    case Prompts => t.prompts as real
    case WorkerTurns => t.workerTurns as real
    case ControllerTransitions => t.controllerTransitions as real
    case HostSessionReplacements => t.hostSessionReplacements as real
    case ModelDuration => t.modelDurationMs as real
    case TelemetryUnavailable => t.telemetryUnavailable as real
  }

  /** One prompt of one worker. */
  datatype Prompt =
    Prompt(after: Usage, before: Usage, durationMs: int, hostSessionReplaced: bool, telemetryAvailable: bool)

  function Share(p: Prompt): Totals {
    Totals(UsageDelta(p.after, p.before), 0, 1, 1, 1, if p.hostSessionReplaced then 1 else 0,
           Max0(p.durationMs), if p.telemetryAvailable then 0 else 1)
  }

  function AddPromptMetrics(t: Totals, p: Prompt): Totals {
    Totals(AddUsage(t.usage, UsageDelta(p.after, p.before)),
           t.sessions, t.prompts + 1, t.workerTurns + 1, t.controllerTransitions + 1,
           t.hostSessionReplacements + (if p.hostSessionReplaced then 1 else 0),
           t.modelDurationMs + Max0(p.durationMs),
           t.telemetryUnavailable + (if p.telemetryAvailable then 0 else 1))
  }

  /** What a prompt adds to every counter is its share, which is never negative. */
  lemma PromptAddsShare(t: Totals, p: Prompt, c: Counter)
    ensures Value(AddPromptMetrics(t, p), c) == Value(t, c) + Value(Share(p), c)
    ensures Value(Share(p), c) >= 0.0
  {
  }

  // ---------- the list ----------

  function Fresh(issue: int): Metric {
    Metric(issue, Zero(), Active, None, 0, 0, 0, 0, 0, None, None, None, None, None, None, map[])
  }

  function Find(list: seq<Metric>, issue: int): Option<Metric> {
    if list == [] then None
    else if list[0].issue == issue then Some(list[0])
    else Find(list[1..], issue)
  }

  function Previous(list: seq<Metric>, issue: int): Metric {
    var found := Find(list, issue);
    if found.Some? then found.value else Fresh(issue)
  }

  /** The list without its first record of the issue. */
  function Without(list: seq<Metric>, issue: int): seq<Metric> {
    if list == [] then []
    else if list[0].issue == issue then list[1..]
    else [list[0]] + Without(list[1..], issue)
  }

  function Newest(list: seq<Metric>): seq<Metric> {
    if |list| <= MAX_ISSUE_METRICS then list else list[|list| - MAX_ISSUE_METRICS..]
  }

  function Touch(list: seq<Metric>, next: Metric): seq<Metric> {
    Newest(Without(list, next.issue) + [next])
  }

  /** `splice` the old record out, `push` the new one, keep the last twenty. */
  method Replace(list: seq<Metric>, next: Metric) returns (r: seq<Metric>)
    ensures r == Touch(list, next)
  {
    var current := Splice(list, next.issue);
    current := current + [next];
    r := if |current| > MAX_ISSUE_METRICS then current[|current| - MAX_ISSUE_METRICS..] else current;
  }

  method Splice(list: seq<Metric>, issue: int) returns (current: seq<Metric>)
    ensures current == Without(list, issue)
  {
    var index := 0;
    while index < |list| && list[index].issue != issue
      invariant index <= |list| && Without(list, issue) == list[..index] + Without(list[index..], issue)
    {
      KeepsFirst(list, index, issue);
      index := index + 1;
    }
    current := if index < |list| then list[..index] + list[index + 1..] else list;
    assert index < |list| ==> list[index..][1..] == list[index + 1..];
    assert index == |list| ==> list[..index] + [] == list;
  }

  lemma KeepsFirst(list: seq<Metric>, index: nat, issue: int)
    requires index < |list| && list[index].issue != issue
    ensures list[..index] + Without(list[index..], issue) == list[..index + 1] + Without(list[index + 1..], issue)
  {
    assert list[index..][1..] == list[index + 1..];
    assert list[..index + 1] == list[..index] + [list[index]];
  }

  function WithPrompt(m: Metric, p: Prompt): Metric {
    m.(totals := AddPromptMetrics(m.totals, p))
  }

  function OrElse<T>(value: Option<T>, fallback: T): Option<T> {
    if value.Some? then value else Some(fallback)
  }

  function WithTransition(m: Metric, total: int, remaining: int, fingerprint: Option<string>): Metric {
    m.(transitions := m.transitions + 1,
       workerLaunches := m.workerLaunches + 1,
       planTasksAtSelection := OrElse(m.planTasksAtSelection, total),
       planTasksRemaining := Some(remaining),
       budgetPolicyVersion := OrElse(m.budgetPolicyVersion, BUDGET_POLICY_VERSION),
       baselineTokens := OrElse(m.baselineTokens, m.totals.usage.totalTokens),
       baselineTransitions := OrElse(m.baselineTransitions, m.transitions),
       baselineWallClockMs := OrElse(m.baselineWallClockMs, m.wallClockMs),
       repeats := if fingerprint.None? then m.repeats
                  else if fingerprint.value in m.repeats
                  then m.repeats[fingerprint.value := m.repeats[fingerprint.value] + 1]
                  else m.repeats[fingerprint.value := 1])
  }

  function WithResult(m: Metric, durationMs: int, headAdvanced: bool, verification: bool): Metric {
    m.(wallClockMs := m.wallClockMs + Max0(durationMs),
       headAdvancingCommits := m.headAdvancingCommits + (if headAdvanced then 1 else 0),
       verificationCycles := m.verificationCycles + (if verification then 1 else 0))
  }

  /** Starts a budget epoch unless the current policy's baselines are all there. */
  function InitializeBudget(m: Metric): Metric {
    if m.budgetPolicyVersion == Some(BUDGET_POLICY_VERSION)
       && m.baselineTokens.Some? && m.baselineTransitions.Some? && m.baselineWallClockMs.Some? then m
    else m.(budgetPolicyVersion := Some(BUDGET_POLICY_VERSION),
            baselineTokens := Some(Max0(m.totals.usage.totalTokens)),
            baselineTransitions := Some(m.transitions),
            baselineWallClockMs := Some(Max0(m.wallClockMs)))
  }

  datatype Event =
    | PromptEvent(attributed: Option<int>, prompt: Prompt)
    | DispositionEvent(issue: int, disposition: Disposition, reason: Option<string>)
    | TransitionEvent(issue: int, total: int, remaining: int, fingerprint: Option<string>)
    | ResultEvent(issue: int, durationMs: int, headAdvanced: bool, verification: bool)
    | BudgetEvent(issue: int)

  /** The record that an event writes, from the one before. */
  function Next(m: Metric, e: Event): Metric {
    match e
    case PromptEvent(_, p) => WithPrompt(m, p)
    case DispositionEvent(_, d, reason) => m.(disposition := d, reason := if reason.Some? then reason else m.reason)
    case TransitionEvent(_, total, remaining, f) => WithTransition(m, total, remaining, f)
    case ResultEvent(_, duration, advanced, verified) => WithResult(m, duration, advanced, verified)
    case BudgetEvent(_) => InitializeBudget(m)
  }

  /** The record that an event writes, if it writes one. */
  function Written(list: seq<Metric>, e: Event): Option<Metric> {
    match e
    case PromptEvent(attributed, _) =>
      if attributed.None? || attributed.value <= 0 then None else Some(Next(Previous(list, attributed.value), e))
    case DispositionEvent(issue, _, _) => Some(Next(Previous(list, issue), e))
    case TransitionEvent(issue, _, _, _) => Some(Next(Previous(list, issue), e))
    case ResultEvent(issue, _, _, _) => if Find(list, issue).None? then None else Some(Next(Previous(list, issue), e))
    case BudgetEvent(issue) => if Find(list, issue).None? then None else Some(Next(Previous(list, issue), e))
  }

  function Apply(list: seq<Metric>, e: Event): seq<Metric> {
    var written := Written(list, e);
    if written.None? then Newest(list) else Touch(list, written.value)
  }

  method AddIssuePromptMetrics(list: seq<Metric>, attributed: Option<int>, p: Prompt) returns (r: seq<Metric>)
    ensures r == Apply(list, PromptEvent(attributed, p))
  {
    if attributed.None? || attributed.value <= 0 { return Newest(list); }
    PreviousIssue(list, attributed.value);
    r := Replace(list, WithPrompt(Previous(list, attributed.value), p));
  }

  method MarkIssueDisposition(list: seq<Metric>, issue: int, d: Disposition, reason: Option<string>)
    returns (r: seq<Metric>)
    ensures r == Apply(list, DispositionEvent(issue, d, reason))
  {
    var m := Previous(list, issue);
    r := Replace(list, m.(disposition := d, reason := if reason.Some? then reason else m.reason));
  }

  method MarkIssueTransition(list: seq<Metric>, issue: int, total: int, remaining: int, fingerprint: Option<string>)
    returns (r: seq<Metric>)
    ensures r == Apply(list, TransitionEvent(issue, total, remaining, fingerprint))
  {
    r := Replace(list, WithTransition(Previous(list, issue), total, remaining, fingerprint));
  }

  method RecordIssueTransitionResult(list: seq<Metric>, issue: int, durationMs: int, headAdvanced: bool,
                                     verification: bool) returns (r: seq<Metric>)
    ensures r == Apply(list, ResultEvent(issue, durationMs, headAdvanced, verification))
  {
    var found := Find(list, issue);
    if found.None? { return Newest(list); }
    r := Replace(list, WithResult(found.value, durationMs, headAdvanced, verification));
  }

  lemma {:induction false} PreviousIssue(list: seq<Metric>, issue: int)
    ensures Previous(list, issue).issue == issue
    ensures Find(list, issue).Some? ==> Find(list, issue).value in list
  {
    if list != [] && list[0].issue != issue { PreviousIssue(list[1..], issue); }
  }

  // ---------- the invariant ----------

  function Issues(list: seq<Metric>): set<int> {
    set m | m in list :: m.issue
  }

  predicate OneEach(list: seq<Metric>) {
    forall i, j :: 0 <= i < j < |list| ==> list[i].issue != list[j].issue
  }

  /** Counters are no negative numbers and no baseline exceeds its counter. */
  predicate Sound(m: Metric) {
    && m.totals.usage.totalTokens >= 0 && m.wallClockMs >= 0
    && (m.baselineTokens.Some? ==> 0 <= m.baselineTokens.value <= m.totals.usage.totalTokens)
    && (m.baselineTransitions.Some? ==> 0 <= m.baselineTransitions.value <= m.transitions)
    && (m.baselineWallClockMs.Some? ==> 0 <= m.baselineWallClockMs.value <= m.wallClockMs)
  }

  ghost predicate Inv(list: seq<Metric>) {
    && |list| <= MAX_ISSUE_METRICS && OneEach(list)
    && forall i :: 0 <= i < |list| ==> Sound(list[i])
  }

  lemma {:induction false} WithoutFacts(list: seq<Metric>, issue: int)
    requires OneEach(list)
    ensures OneEach(Without(list, issue)) && |Without(list, issue)| <= |list|
    ensures forall m :: m in Without(list, issue) <==> m in list && m.issue != issue
  {
    if list != [] {
      assert list == [list[0]] + list[1..];
      WithoutFacts(list[1..], issue);
      if list[0].issue == issue {
        forall m | m in list[1..] ensures m.issue != issue {
          var i :| 0 <= i < |list[1..]| && list[1..][i] == m;
          assert list[i + 1] == m;
        }
      } else {
        OneEachPrepend(list[0], Without(list[1..], issue), list);
      }
    }
  }

  lemma OneEachPrepend(first: Metric, rest: seq<Metric>, list: seq<Metric>)
    requires OneEach(rest) && OneEach(list) && list != [] && list[0] == first
    requires forall m :: m in rest ==> m in list[1..]
    ensures OneEach([first] + rest)
  {
    forall i | 0 <= i < |rest| ensures rest[i].issue != first.issue {
      assert rest[i] in list[1..];
      var j :| 0 <= j < |list[1..]| && list[1..][j] == rest[i];
      assert list[j + 1] == rest[i];
    }
  }

  lemma WrittenSound(list: seq<Metric>, e: Event)
    requires Inv(list) && Written(list, e).Some?
    ensures Sound(Written(list, e).value)
    ensures e.PromptEvent? ==> e.attributed.Some? && Written(list, e).value.issue == e.attributed.value
    ensures !e.PromptEvent? ==> Written(list, e).value.issue == e.issue
  {
    var issue := if e.PromptEvent? then e.attributed.value else e.issue;
    PreviousIssue(list, issue);
    assert Find(list, issue).Some? ==> Sound(Find(list, issue).value);
  }

  /** After any update: at most twenty records, one for each issue, the one just touched last,
      and before it the newest of the untouched ones, unchanged and in their old order. */
  lemma UpdateKeepsInv(list: seq<Metric>, e: Event)
    requires Inv(list)
    ensures Inv(Apply(list, e))
    ensures Written(list, e).None? ==> Apply(list, e) == list
    ensures Written(list, e).Some? ==>
              var r, next := Apply(list, e), Written(list, e).value;
              r != [] && r[|r| - 1] == next
              && exists k: nat ::
                   k <= 1 && k <= |Without(list, next.issue)| && r[..|r| - 1] == Without(list, next.issue)[k..]
  {
    if Written(list, e).Some? {
      var next := Written(list, e).value;
      WrittenSound(list, e);
      TouchKeepsInv(list, next);
    }
  }

  lemma TouchKeepsInv(list: seq<Metric>, next: Metric)
    requires Inv(list) && Sound(next)
    ensures Inv(Touch(list, next))
    ensures var r := Touch(list, next);
            r != [] && r[|r| - 1] == next
            && exists k: nat ::
                 k <= 1 && k <= |Without(list, next.issue)| && r[..|r| - 1] == Without(list, next.issue)[k..]
  {
    var left := Without(list, next.issue);
    WithoutFacts(list, next.issue);
    forall i | 0 <= i < |left| ensures left[i].issue != next.issue && Sound(left[i]) {
      assert left[i] in left;
    }
    var k: nat := if |left| < MAX_ISSUE_METRICS then 0 else 1;
    NewestIs(left, next, k);
    OneEachAppend(left[k..], next);
  }

  lemma NewestIs(left: seq<Metric>, next: Metric, k: nat)
    requires |left| <= MAX_ISSUE_METRICS && k == if |left| < MAX_ISSUE_METRICS then 0 else 1
    ensures Newest(left + [next]) == left[k..] + [next]
  {
  }

  lemma OneEachAppend(left: seq<Metric>, next: Metric)
    requires OneEach(left) && forall i :: 0 <= i < |left| ==> left[i].issue != next.issue
    ensures OneEach(left + [next])
  {
  }

  function ApplyAll(list: seq<Metric>, events: seq<Event>): seq<Metric> {
    if events == [] then list else Apply(ApplyAll(list, events[..|events| - 1]), events[|events| - 1])
  }

  lemma {:induction false} InvAlways(events: seq<Event>)
    ensures Inv(ApplyAll([], events))
  {
    if events != [] {
      InvAlways(events[..|events| - 1]);
      UpdateKeepsInv(ApplyAll([], events[..|events| - 1]), events[|events| - 1]);
    }
  }

  // ---------- survivors ----------

  lemma {:induction false} FindIs(list: seq<Metric>, m: Metric)
    requires OneEach(list) && m in list
    ensures Find(list, m.issue) == Some(m)
  {
    if list[0] != m {
      assert list == [list[0]] + list[1..];
      var i :| 0 <= i < |list| && list[i] == m;
      FindIs(list[1..], m);
    }
  }

  /** What an update may not change in a record: the totals and counters only grow, and what
      the first transition fixed stays fixed. */
  predicate Continues(before: Metric, after: Metric, budgetRestarted: bool) {
    && after.issue == before.issue
    && after.totals.usage.totalTokens >= before.totals.usage.totalTokens
    && after.totals.prompts >= before.totals.prompts
    && after.transitions >= before.transitions && after.wallClockMs >= before.wallClockMs
    && (before.planTasksAtSelection.Some? ==> after.planTasksAtSelection == before.planTasksAtSelection)
    && (before.baselineTokens.Some? && !budgetRestarted ==> after.baselineTokens == before.baselineTokens)
    && (before.baselineTransitions.Some? && !budgetRestarted
        ==> after.baselineTransitions == before.baselineTransitions)
    && (before.baselineWallClockMs.Some? && !budgetRestarted
        ==> after.baselineWallClockMs == before.baselineWallClockMs)
  }

  /** A record that survives an update is unchanged if the update writes another issue's, and
      otherwise continues the one before. */
  lemma SurvivorsContinue(list: seq<Metric>, e: Event, issue: int)
    requires Inv(list) && Find(list, issue).Some? && Find(Apply(list, e), issue).Some?
    ensures var before, after := Find(list, issue).value, Find(Apply(list, e), issue).value;
            && (after != before ==> Written(list, e) == Some(after))
            && Continues(before, after, e.BudgetEvent?)
  {
    var before, after := Find(list, issue).value, Find(Apply(list, e), issue).value;
    UpdateKeepsInv(list, e);
    PreviousIssue(list, issue);
    PreviousIssue(Apply(list, e), issue);
    if Written(list, e).Some? {
      var next := Written(list, e).value;
      WithoutFacts(list, next.issue);
      WrittenSound(list, e);
      assert after in Without(list, next.issue) + [next];
      if after == next { WrittenContinues(list, e); } else { FindIs(list, after); }
    }
  }

  lemma WrittenContinues(list: seq<Metric>, e: Event)
    requires Written(list, e).Some? && Find(list, Written(list, e).value.issue).Some?
    ensures var next := Written(list, e).value; Continues(Find(list, next.issue).value, next, e.BudgetEvent?)
  {
    var issue := if e.PromptEvent? then e.attributed.value else e.issue;
    PreviousIssue(list, issue);
    if e.PromptEvent? { PromptAddsShare(Find(list, issue).value.totals, e.prompt, TotalTokens); }
  }

  // ---------- conservation ----------

  function Sum(list: seq<Metric>, c: Counter): real {
    if list == [] then 0.0 else Value(list[0].totals, c) + Sum(list[1..], c)
  }

  lemma {:induction false} SumJoin(a: seq<Metric>, b: seq<Metric>, c: Counter)
    ensures Sum(a + b, c) == Sum(a, c) + Sum(b, c)
  {
    if a == [] {
      assert a + b == b;
    } else {
      assert (a + b)[1..] == a[1..] + b;
      SumJoin(a[1..], b, c);
    }
  }

  lemma {:induction false} SumWithout(list: seq<Metric>, issue: int, c: Counter)
    ensures Sum(list, c) == Sum(Without(list, issue), c) + Value(Previous(list, issue).totals, c)
  {
    if list == [] {
      ZeroValue(c);
    } else if list[0].issue != issue {
      SumWithout(list[1..], issue, c);
      var rest := Without(list[1..], issue);
      assert ([list[0]] + rest)[1..] == rest;
    }
  }

  lemma ZeroValue(c: Counter)
    ensures Value(Zero(), c) == 0.0
  {
  }

  /** What the update drops off the front of the list. */
  function Evicted(list: seq<Metric>, e: Event): seq<Metric> {
    var written := Written(list, e);
    if written.None? then []
    else
      var left := Without(list, written.value.issue);
      if |left| < MAX_ISSUE_METRICS then [] else left[..1]
  }

  /** What an event adds to the totals of its issue. */
  function Attributed(e: Event): Totals {
    if e.PromptEvent? && e.attributed.Some? && e.attributed.value > 0 then Share(e.prompt) else Zero()
  }

  lemma WrittenTotals(list: seq<Metric>, e: Event, c: Counter)
    requires Written(list, e).Some?
    ensures Value(Written(list, e).value.totals, c)
            == Value(Previous(list, Written(list, e).value.issue).totals, c) + Value(Attributed(e), c)
  {
    var issue := if e.PromptEvent? then e.attributed.value else e.issue;
    PreviousIssue(list, issue);
    if e.PromptEvent? { PromptAddsShare(Previous(list, issue).totals, e.prompt, c); } else { ZeroValue(c); }
  }

  /** Every update conserves every counter: what is in the list afterwards, with what was
      evicted, is what was there before and what the event attributes. */
  lemma UpdateConserves(list: seq<Metric>, e: Event, c: Counter)
    requires Inv(list)
    ensures Sum(Apply(list, e), c) + Sum(Evicted(list, e), c) == Sum(list, c) + Value(Attributed(e), c)
  {
    ZeroValue(c);
    if Written(list, e).Some? {
      var next := Written(list, e).value;
      WithoutFacts(list, next.issue);
      WrittenTotals(list, e, c);
      SumWithout(list, next.issue, c);
      SumTouch(Without(list, next.issue), next, c);
    }
  }

  lemma SumTouch(left: seq<Metric>, next: Metric, c: Counter)
    requires |left| <= MAX_ISSUE_METRICS
    ensures Sum(Newest(left + [next]), c) + Sum(if |left| < MAX_ISSUE_METRICS then [] else left[..1], c)
            == Sum(left, c) + Value(next.totals, c)
  {
    SumJoin(left, [next], c);
    SumOne(next, c);
    if |left| == MAX_ISSUE_METRICS {
      assert left + [next] == left[..1] + (left[1..] + [next]);
      SumJoin(left[..1], left[1..] + [next], c);
      assert Newest(left + [next]) == left[1..] + [next];
    }
  }

  lemma SumOne(m: Metric, c: Counter)
    ensures Sum([m], c) == Value(m.totals, c)
  {
    assert [m][1..] == [];
  }

  function RunTotals(events: seq<Event>): Totals {
    if events == [] then Zero()
    else
      var before, e := RunTotals(events[..|events| - 1]), events[|events| - 1];
      if e.PromptEvent? then AddPromptMetrics(before, e.prompt) else before
  }

  /** The issues that events may create records for. */
  predicate Within(issues: set<int>, e: Event) {
    if e.PromptEvent? then e.attributed.Some? && e.attributed.value > 0 && e.attributed.value in issues
    else e.issue in issues
  }

  lemma {:induction false} SizeOfIssues(list: seq<Metric>)
    requires OneEach(list)
    ensures |Issues(list)| == |list|
  {
    if list != [] {
      var front, last := list[..|list| - 1], list[|list| - 1];
      SizeOfIssues(front);
      LastIsNew(front, last, list);
    }
  }

  lemma LastIsNew(front: seq<Metric>, last: Metric, list: seq<Metric>)
    requires OneEach(list) && list == front + [last]
    ensures Issues(list) == Issues(front) + {last.issue} && last.issue !in Issues(front)
  {
    assert forall m :: m in list <==> m in front || m == last;
    forall m | m in front ensures m.issue != last.issue {
      var i :| 0 <= i < |front| && front[i] == m;
      assert list[i] == m && list[|front|] == last;
    }
  }

  lemma NoEviction(list: seq<Metric>, e: Event, issues: set<int>)
    requires Inv(list) && Issues(list) <= issues && |issues| <= MAX_ISSUE_METRICS && Within(issues, e)
    ensures Evicted(list, e) == [] && Issues(Apply(list, e)) <= issues
  {
    UpdateKeepsInv(list, e);
    if Written(list, e).Some? {
      var next := Written(list, e).value;
      WrittenSound(list, e);
      var left := Without(list, next.issue);
      WithoutFacts(list, next.issue);
      SizeOfIssues(left);
      assert next.issue !in Issues(left);
      assert Issues(left) + {next.issue} <= issues by {
        forall m | m in left ensures m.issue in issues {
          assert m in list;
        }
      }
      SubsetSize(Issues(left) + {next.issue}, issues);
      assert |Issues(left) + {next.issue}| == |left| + 1;
      forall m | m in Apply(list, e) ensures m.issue in issues {
        assert m in left + [next];
      }
    }
  }

  /** With at most twenty issues and every prompt attributed to one, the per-issue counters
      add up to the run's counters after any run. */
  lemma {:induction false} TotalsAddUp(events: seq<Event>, issues: set<int>, c: Counter)
    requires |issues| <= MAX_ISSUE_METRICS && forall i :: 0 <= i < |events| ==> Within(issues, events[i])
    ensures Sum(ApplyAll([], events), c) == Value(RunTotals(events), c)
    ensures Issues(ApplyAll([], events)) <= issues
  {
    ZeroValue(c);
    if events == [] {
      assert Issues([]) == {};
    } else {
      var before, e := events[..|events| - 1], events[|events| - 1];
      assert forall i :: 0 <= i < |before| ==> before[i] == events[i];
      TotalsAddUp(before, issues, c);
      InvAlways(before);
      OneMoreEvent(ApplyAll([], before), RunTotals(before), e, issues, c);
    }
  }

  lemma OneMoreEvent(list: seq<Metric>, run: Totals, e: Event, issues: set<int>, c: Counter)
    requires Inv(list) && Issues(list) <= issues && |issues| <= MAX_ISSUE_METRICS && Within(issues, e)
    requires Sum(list, c) == Value(run, c)
    ensures Sum(Apply(list, e), c) == Value(if e.PromptEvent? then AddPromptMetrics(run, e.prompt) else run, c)
    ensures Issues(Apply(list, e)) <= issues
  {
    ZeroValue(c);
    NoEviction(list, e, issues);
    UpdateConserves(list, e, c);
    if e.PromptEvent? { PromptAddsShare(run, e.prompt, c); }
  }

  // ---------- a record is the history of its issue ----------

  function Last(events: seq<Event>): Event
    requires events != []
  {
    events[|events| - 1]
  }

  function Front(events: seq<Event>): seq<Event>
    requires events != []
  {
    events[..|events| - 1]
  }

  /** The events that write the record of an issue. A result and a budget are ignored until some
      other event has made the record. */
  function About(events: seq<Event>, issue: int): seq<Event> {
    if events == [] then []
    else
      var before, e := About(Front(events), issue), Last(events);
      if e.PromptEvent? then if e.attributed == Some(issue) && issue > 0 then before + [e] else before
      else if e.issue == issue && (e.DispositionEvent? || e.TransitionEvent? || before != []) then before + [e]
      else before
  }

  function Transitions(about: seq<Event>): nat {
    if about == [] then 0 else Transitions(Front(about)) + if Last(about).TransitionEvent? then 1 else 0
  }

  function Commits(about: seq<Event>): nat {
    if about == [] then 0
    else Commits(Front(about)) + if Last(about).ResultEvent? && Last(about).headAdvanced then 1 else 0
  }

  function Cycles(about: seq<Event>): nat {
    if about == [] then 0
    else Cycles(Front(about)) + if Last(about).ResultEvent? && Last(about).verification then 1 else 0
  }

  /** The time of all results; a negative one counts for nothing. */
  function WallClock(about: seq<Event>): int {
    if about == [] then 0
    else
      WallClock(Front(about))
      + if Last(about).ResultEvent? && Last(about).durationMs > 0 then Last(about).durationMs else 0
  }

  function LastDisposition(about: seq<Event>): Disposition {
    if about == [] then Active
    else if Last(about).DispositionEvent? then Last(about).disposition
    else LastDisposition(Front(about))
  }

  function LastReason(about: seq<Event>): Option<string> {
    if about == [] then None
    else if Last(about).DispositionEvent? && Last(about).reason.Some? then Last(about).reason
    else LastReason(Front(about))
  }

  function FirstTotal(about: seq<Event>): Option<int> {
    if about == [] then None
    else if FirstTotal(Front(about)).Some? then FirstTotal(Front(about))
    else if Last(about).TransitionEvent? then Some(Last(about).total) else None
  }

  function LastRemaining(about: seq<Event>): Option<int> {
    if about == [] then None
    else if Last(about).TransitionEvent? then Some(Last(about).remaining)
    else LastRemaining(Front(about))
  }

  function RepeatsOf(about: seq<Event>, fingerprint: string): nat {
    if about == [] then 0
    else
      RepeatsOf(Front(about), fingerprint)
      + if Last(about).TransitionEvent? && Last(about).fingerprint == Some(fingerprint) then 1 else 0
  }

  /** What the counter of the prompts comes to. */
  function Spent(about: seq<Event>, c: Counter): real {
    if about == [] then 0.0
    else Spent(Front(about), c) + if Last(about).PromptEvent? then Value(Share(Last(about).prompt), c) else 0.0
  }

  /** The events before the first transition or budget, which fixed the baselines. */
  function BeforeBudget(about: seq<Event>): Option<seq<Event>> {
    if about == [] then None
    else if BeforeBudget(Front(about)).Some? then BeforeBudget(Front(about))
    else if Last(about).TransitionEvent? || Last(about).BudgetEvent? then Some(Front(about))
    else None
  }

  ghost predicate IsRecord(m: Metric, about: seq<Event>) {
    && m.transitions == m.workerLaunches == Transitions(about)
    && m.headAdvancingCommits == Commits(about) && m.verificationCycles == Cycles(about)
    && m.wallClockMs == WallClock(about)
    && m.disposition == LastDisposition(about) && m.reason == LastReason(about)
    && m.planTasksAtSelection == FirstTotal(about) && m.planTasksRemaining == LastRemaining(about)
    && HasRepeats(m, about) && HasSpent(m.totals, about) && HasBaselines(m, BeforeBudget(about))
  }

  ghost predicate HasRepeats(m: Metric, about: seq<Event>) {
    && (forall f :: f in m.repeats <==> RepeatsOf(about, f) > 0)
    && (forall f :: f in m.repeats ==> m.repeats[f] == RepeatsOf(about, f))
  }

  ghost predicate HasSpent(totals: Totals, about: seq<Event>) {
    forall c :: Value(totals, c) == Spent(about, c)
  }

  /** The baselines are the counters as they were before the budget began. */
  predicate HasBaselines(m: Metric, start: Option<seq<Event>>) {
    if start.None? then
      && m.budgetPolicyVersion.None? && m.baselineTokens.None?
      && m.baselineTransitions.None? && m.baselineWallClockMs.None?
    else
      && m.budgetPolicyVersion == Some(BUDGET_POLICY_VERSION)
      && m.baselineTokens.Some? && m.baselineTokens.value as real == Spent(start.value, TotalTokens)
      && m.baselineTransitions == Some(Transitions(start.value))
      && m.baselineWallClockMs == Some(WallClock(start.value))
  }

  /** What an event does to the record of one issue. */
  lemma FindApply(list: seq<Metric>, e: Event, issue: int)
    requires Inv(list) && Evicted(list, e) == []
    ensures Find(Apply(list, e), issue)
            == if Written(list, e).Some? && Written(list, e).value.issue == issue then Written(list, e)
               else Find(list, issue)
  {
    UpdateKeepsInv(list, e);
    if Written(list, e).Some? {
      var next := Written(list, e).value;
      var left := Without(list, next.issue);
      WithoutFacts(list, next.issue);
      assert Apply(list, e) == left + [next];
      FindJoin(left, next, issue);
      FindWithout(list, next.issue, issue);
    }
  }

  lemma {:induction false} FindJoin(left: seq<Metric>, next: Metric, issue: int)
    ensures Find(left + [next], issue)
            == if Find(left, issue).Some? then Find(left, issue) else if next.issue == issue then Some(next) else None
  {
    if left != [] {
      assert (left + [next])[1..] == left[1..] + [next];
      FindJoin(left[1..], next, issue);
    }
  }

  lemma {:induction false} FindWithout(list: seq<Metric>, issue: int, other: int)
    requires OneEach(list)
    ensures Find(Without(list, issue), other) == if other == issue then None else Find(list, other)
  {
    if list != [] {
      if list[0].issue == issue {
        forall i | 0 <= i < |list[1..]| ensures list[1..][i].issue != issue { assert list[i + 1] == list[1..][i]; }
        NotFound(list[1..], issue);
      } else {
        FindWithout(list[1..], issue, other);
      }
    }
  }

  lemma {:induction false} NotFound(list: seq<Metric>, issue: int)
    requires forall i :: 0 <= i < |list| ==> list[i].issue != issue
    ensures Find(list, issue).None?
  {
    if list != [] { NotFound(list[1..], issue); }
  }

  ghost predicate Recorded(list: seq<Metric>, events: seq<Event>, issue: int) {
    var about := About(events, issue);
    && (Find(list, issue).None? <==> about == [])
    && (Find(list, issue).Some? ==> IsRecord(Find(list, issue).value, about))
  }

  lemma FreshIsRecord(issue: int)
    ensures IsRecord(Fresh(issue), [])
  {
    var m := Fresh(issue);
    assert HasBaselines(m, BeforeBudget([])) && HasRepeats(m, []);
    assert HasSpent(m.totals, []) by {
      forall c ensures Value(m.totals, c) == Spent([], c) { ZeroValue(c); }
    }
  }

  lemma SpentStep(m: Metric, e: Event, about: seq<Event>)
    requires HasSpent(m.totals, about)
    ensures HasSpent(Next(m, e).totals, about + [e])
  {
    assert Front(about + [e]) == about && Last(about + [e]) == e;
    forall c ensures Value(Next(m, e).totals, c) == Spent(about + [e], c) {
      if e.PromptEvent? { PromptAddsShare(m.totals, e.prompt, c); }
    }
  }

  lemma RepeatsStep(m: Metric, e: Event, about: seq<Event>)
    requires HasRepeats(m, about)
    ensures HasRepeats(Next(m, e), about + [e])
  {
    assert Front(about + [e]) == about && Last(about + [e]) == e;
  }

  lemma BaselinesStep(m: Metric, e: Event, about: seq<Event>)
    requires IsRecord(m, about) && Sound(m)
    ensures HasBaselines(Next(m, e), BeforeBudget(about + [e]))
  {
    assert Front(about + [e]) == about && Last(about + [e]) == e;
    assert Value(m.totals, TotalTokens) == Spent(about, TotalTokens);
  }

  lemma NextIsRecord(m: Metric, e: Event, about: seq<Event>)
    requires IsRecord(m, about) && Sound(m)
    ensures IsRecord(Next(m, e), about + [e])
  {
    assert Front(about + [e]) == about && Last(about + [e]) == e;
    SpentStep(m, e, about);
    RepeatsStep(m, e, about);
    BaselinesStep(m, e, about);
  }

  /** With at most twenty issues, after any run there is a record for exactly the issues that
      some event was about, and each is the history of its issue: its counters are the numbers
      and sums of those events, its first and last entries theirs, and its baselines the
      counters as they were when its budget began. */
  lemma {:induction false} RecordIsHistory(events: seq<Event>, issues: set<int>, issue: int)
    requires |issues| <= MAX_ISSUE_METRICS && forall i :: 0 <= i < |events| ==> Within(issues, events[i])
    ensures Recorded(ApplyAll([], events), events, issue)
  {
    if events != [] {
      var before, e := Front(events), Last(events);
      assert forall i :: 0 <= i < |before| ==> before[i] == events[i];
      RecordIsHistory(before, issues, issue);
      TotalsAddUp(before, issues, Prompts);
      InvAlways(before);
      NoEviction(ApplyAll([], before), e, issues);
      RecordStep(ApplyAll([], before), before, e, issue);
      assert before + [e] == events;
    }
  }

  lemma RecordStep(list: seq<Metric>, events: seq<Event>, e: Event, issue: int)
    requires Inv(list) && Evicted(list, e) == [] && Recorded(list, events, issue)
    ensures Recorded(Apply(list, e), events + [e], issue)
  {
    FindApply(list, e, issue);
    AboutStep(list, events, e, issue);
    if Written(list, e).Some? && Written(list, e).value.issue == issue {
      if Find(list, issue).None? { FreshIsRecord(issue); } else { PreviousIssue(list, issue); }
      NextIsRecord(Previous(list, issue), e, About(events, issue));
    }
  }

  /** The events about an issue are those that write its record. */
  lemma AboutStep(list: seq<Metric>, events: seq<Event>, e: Event, issue: int)
    requires Inv(list) && (Find(list, issue).None? <==> About(events, issue) == [])
    ensures var written := Written(list, e);
            if written.Some? && written.value.issue == issue then
              && written.value == Next(Previous(list, issue), e)
              && About(events + [e], issue) == About(events, issue) + [e]
            else About(events + [e], issue) == About(events, issue)
  {
    assert Front(events + [e]) == events && Last(events + [e]) == e;
    PreviousIssue(list, issue);
    if Written(list, e).Some? { WrittenSound(list, e); }
  }
}
