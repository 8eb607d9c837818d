/** Dependency-ordered selection of the next roadmap issue. */
module Roadmap {
  import opened Text

  /** `Unresolvable` is any state text other than OPEN and CLOSED. */
  datatype State = Open | Closed | Unresolvable

  /** A recognised dependency declaration; `Deps` always names at least one issue. */
  datatype Declaration = Deps(first: nat, rest: seq<nat>) | NoDeps | Ambiguous

  datatype RoadmapIssue = RoadmapIssue(
    number: nat, state: State, refusingLabel: Option<string>, declarations: seq<Declaration>)

  /** An answer of the authority for an issue outside the roadmap. */
  datatype Lookup = Found(number: nat, state: State) | LookupFailed

  datatype Error =
    | EmptyRoadmap
    | Duplicate(issue: nat)
    | AmbiguousDependencies(issue: nat)
    | AuthorityAmbiguous(dependency: nat, candidate: nat, answered: nat)
    | AuthorityUnavailable(dependency: nat, candidate: nat)

  datatype Result<T> = Ok(value: T) | Err(error: Error)

  datatype Skip = SkipClosed | SkipNotEligible(refusal: string) | SkipBlocked(blockers: seq<nat>)

  datatype Selection = Selection(selected: Option<nat>, skips: seq<(nat, Skip)>)

  // ---------- declared dependencies ----------

  function Names(declarations: seq<Declaration>): set<nat> {
    if declarations == [] then {}
    else
      var front, last := Names(declarations[..|declarations| - 1]), declarations[|declarations| - 1];
      if last.Deps? then front + {last.first} + (set n | n in last.rest) else front
  }

  /** Some declaration is unclear, or issues are named and denied at once. */
  predicate Contradicts(declarations: seq<Declaration>) {
    || Ambiguous in declarations
    || (NoDeps in declarations && Names(declarations) != {})
  }

  lemma {:induction false} LeastExists(s: set<nat>) returns (least: nat)
    requires s != {}
    ensures least in s && forall x :: x in s ==> least <= x
  {
    var n :| n in s;
    if s == {n} {
      least := n;
    } else {
      var rest := LeastExists(s - {n});
      least := if n < rest then n else rest;
      assert forall x :: x in s ==> x == n || x in s - {n};
    }
  }

  lemma SomeLeast(s: set<nat>)
    requires s != {}
    ensures exists least :: least in s && forall x :: x in s ==> least <= x
  {
    var least := LeastExists(s);
  }

  /** The members of a set in ascending order. */
  function Ascending(s: set<nat>): seq<nat> {
    if s == {} then []
    else
      SomeLeast(s);
      var least :| least in s && forall x :: x in s ==> least <= x;
      [least] + Ascending(s - {least})
  }

  lemma {:induction false} AscendingMembers(s: set<nat>)
    ensures forall x :: x in Ascending(s) <==> x in s
    ensures forall i, j :: 0 <= i < j < |Ascending(s)| ==> Ascending(s)[i] < Ascending(s)[j]
  {
    if s != {} {
      var least := Ascending(s)[0];
      var rest := Ascending(s - {least});
      AscendingMembers(s - {least});
      assert Ascending(s) == [least] + rest;
      forall j | 0 <= j < |rest| ensures least < rest[j] {
        assert rest[j] in s - {least};
      }
    }
  }

  function Declared(issue: RoadmapIssue): Result<seq<nat>> {
    if Contradicts(issue.declarations) then Err(AmbiguousDependencies(issue.number))
    else Ok(Ascending(Names(issue.declarations) - {issue.number}))
  }

  lemma {:induction false} ContradictsFrom(declarations: seq<Declaration>, i: nat)
    requires i <= |declarations| && Contradicts(declarations[..i])
    ensures Contradicts(declarations)
    decreases |declarations| - i
  {
    if i < |declarations| {
      var next := declarations[..i + 1];
      assert next[..i] == declarations[..i];
      assert forall d :: d in declarations[..i] ==> d in next;
      assert Names(declarations[..i]) <= Names(next);
      ContradictsFrom(declarations, i + 1);
    } else {
      assert declarations[..i] == declarations;
    }
  }

  method DeclaredDependencies(issue: RoadmapIssue) returns (r: Result<seq<nat>>)
    ensures r == Declared(issue)
  {
    var lines := issue.declarations;
    var dependencies: set<nat>, declaredNone := {}, false;
    for i := 0 to |lines|
      invariant dependencies == Names(lines[..i]) && declaredNone == (NoDeps in lines[..i])
      invariant !Contradicts(lines[..i])
    {
      assert lines[..i + 1] == lines[..i] + [lines[i]];
      assert lines[..i + 1][..i] == lines[..i];
      match lines[i] {
        case Ambiguous =>
          ContradictsFrom(lines, i + 1);
          return Err(AmbiguousDependencies(issue.number));
        case NoDeps =>
          if dependencies != {} {
            ContradictsFrom(lines, i + 1);
            return Err(AmbiguousDependencies(issue.number));
          }
          declaredNone := true;
        case Deps(first, rest) =>
          dependencies := dependencies + {first} + (set n | n in rest);
          if declaredNone {
            assert first in dependencies;
            ContradictsFrom(lines, i + 1);
            return Err(AmbiguousDependencies(issue.number));
          }
      }
    }
    assert lines[..|lines|] == lines;
    r := Ok(Ascending(dependencies - {issue.number}));
  }

  // ---------- open dependencies ----------

  function ByNumber(items: seq<RoadmapIssue>): map<nat, State> {
    if items == [] then map[]
    else ByNumber(items[..|items| - 1])[items[|items| - 1].number := items[|items| - 1].state]
  }

  function Checked(answer: Lookup, dependency: nat, candidate: nat): Result<State> {
    match answer
    case LookupFailed => Err(AuthorityUnavailable(dependency, candidate))
    case Found(number, state) =>
      if number != dependency then Err(AuthorityAmbiguous(dependency, candidate, number))
      else if state == Unresolvable then Err(AuthorityUnavailable(dependency, candidate))
      else Ok(state)
  }

  /** The state of a dependency: the roadmap's own, or else what the authority answered. */
  function StateOf(d: nat, candidate: nat, roadmap: map<nat, State>, answers: map<nat, Lookup>): Result<State> {
    if d in roadmap then Ok(roadmap[d])
    else Checked(if d in answers then answers[d] else LookupFailed, d, candidate)
  }

  /** The dependencies that are not closed, or the first error. */
  function StillOpen(deps: seq<nat>, candidate: nat, roadmap: map<nat, State>,
                     answers: map<nat, Lookup>): Result<seq<nat>> {
    if deps == [] then Ok([])
    else
      var before, d := StillOpen(deps[..|deps| - 1], candidate, roadmap, answers), deps[|deps| - 1];
      if before.Err? then before
      else
        var state := StateOf(d, candidate, roadmap, answers);
        if state.Err? then Err(state.error)
        else if state.value == Closed then before
        else Ok(before.value + [d])
  }

  /** Every answer that the scan of the dependencies needs is there. */
  predicate Answered(deps: seq<nat>, candidate: nat, roadmap: map<nat, State>, answers: map<nat, Lookup>) {
    deps == [] ||
    (var front := deps[..|deps| - 1];
     && Answered(front, candidate, roadmap, answers)
     && (StillOpen(front, candidate, roadmap, answers).Err?
         || deps[|deps| - 1] in roadmap || deps[|deps| - 1] in answers))
  }

  ghost predicate Extends(more: map<nat, Lookup>, answers: map<nat, Lookup>) {
    forall n :: n in answers ==> n in more && more[n] == answers[n]
  }

  /** Later answers do not change what earlier ones decided. */
  lemma {:induction false} AnswersStay(deps: seq<nat>, candidate: nat, roadmap: map<nat, State>,
                                       answers: map<nat, Lookup>, more: map<nat, Lookup>)
    requires Answered(deps, candidate, roadmap, answers) && Extends(more, answers)
    ensures Answered(deps, candidate, roadmap, more)
    ensures StillOpen(deps, candidate, roadmap, more) == StillOpen(deps, candidate, roadmap, answers)
  {
    if deps != [] {
      AnswersStay(deps[..|deps| - 1], candidate, roadmap, answers, more);
    }
  }

  lemma {:induction false} FirstErrorStays(deps: seq<nat>, i: nat, candidate: nat, roadmap: map<nat, State>,
                                           answers: map<nat, Lookup>)
    requires i <= |deps| && StillOpen(deps[..i], candidate, roadmap, answers).Err?
    requires Answered(deps[..i], candidate, roadmap, answers)
    ensures StillOpen(deps, candidate, roadmap, answers) == StillOpen(deps[..i], candidate, roadmap, answers)
    ensures Answered(deps, candidate, roadmap, answers)
    decreases |deps| - i
  {
    if i < |deps| {
      assert deps[..i + 1][..i] == deps[..i];
      FirstErrorStays(deps, i + 1, candidate, roadmap, answers);
    } else {
      assert deps[..i] == deps;
    }
  }

  /** The cache of authority answers. The provider's answer may depend on when it is asked:
      `provider(n, k)` is its answer for issue n as its k-th call. */
  class AuthorityCache {
    const provider: (nat, nat) -> Lookup
    var answers: map<nat, Lookup>
    var calls: seq<nat>

    ghost predicate Valid()
      reads this
    {
      && (forall n :: n in answers <==> n in calls)
      && (forall i, j :: 0 <= i < j < |calls| ==> calls[i] != calls[j])
      && (forall i :: 0 <= i < |calls| ==> answers[calls[i]] == provider(calls[i], i))
    }

    constructor (provider: (nat, nat) -> Lookup)
      ensures Valid() && answers == map[] && this.provider == provider
    {
      this.provider := provider;
      answers, calls := map[], [];
    }

    /** Asks the provider at most once for each issue. */
    method Ask(dependency: nat) returns (answer: Lookup)
      requires Valid()
      modifies this
      ensures Valid() && Extends(answers, old(answers))
      ensures dependency in answers && answer == answers[dependency]
      ensures calls == old(calls) + if dependency in old(answers) then [] else [dependency]
    {
      if dependency !in answers {
        answers := answers[dependency := provider(dependency, |calls|)];
        calls := calls + [dependency];
      }
      answer := answers[dependency];
    }

    method OpenDependencies(deps: seq<nat>, candidate: nat, roadmap: map<nat, State>) returns (open: Result<seq<nat>>)
      requires Valid()
      modifies this
      ensures Valid() && Extends(answers, old(answers))
      ensures Answered(deps, candidate, roadmap, answers) && open == StillOpen(deps, candidate, roadmap, answers)
      ensures open.Ok? ==> forall d :: d in open.value <==> d in deps && OpenAt(d, roadmap, answers)
      ensures open.Ok? ==> forall d :: d in deps && d !in open.value ==> ClosedAt(d, roadmap, answers)
    {
      var found := [];
      for i := 0 to |deps|
        invariant Valid() && Extends(answers, old(answers))
        invariant Answered(deps[..i], candidate, roadmap, answers)
        invariant StillOpen(deps[..i], candidate, roadmap, answers) == Ok(found)
      {
        var d := deps[i];
        assert deps[..i + 1][..i] == deps[..i];
        if d in roadmap {
          if roadmap[d] != Closed { found := found + [d]; }
          continue;
        }
        ghost var before := answers;
        var answer := Ask(d);
        AnswersStay(deps[..i], candidate, roadmap, before, answers);
        var state := Checked(answer, d, candidate);
        if state.Err? {
          FirstErrorStays(deps, i + 1, candidate, roadmap, answers);
          return Err(state.error);
        }
        if state.value != Closed { found := found + [d]; }
      }
      assert deps[..|deps|] == deps;
      open := Ok(found);
      forall d ensures (d in found <==> d in deps && OpenAt(d, roadmap, answers))
                       && (d in deps && d !in found ==> ClosedAt(d, roadmap, answers))
      {
        StillOpenMeans(deps, candidate, roadmap, answers, d);
      }
    }
  }

  // ---------- selection ----------

  datatype Outcome = Ready | Skipped(reason: Skip) | Failed(error: Error)

  function Assess(item: RoadmapIssue, roadmap: map<nat, State>, answers: map<nat, Lookup>): Outcome {
    if item.state == Closed then Skipped(SkipClosed)
    else if item.refusingLabel.Some? then Skipped(SkipNotEligible(item.refusingLabel.value))
    else
      var deps := Declared(item);
      if deps.Err? then Failed(deps.error)
      else
        var open := StillOpen(deps.value, item.number, roadmap, answers);
        if open.Err? then Failed(open.error)
        else if open.value != [] then Skipped(SkipBlocked(open.value))
        else Ready
  }

  predicate Informed(item: RoadmapIssue, roadmap: map<nat, State>, answers: map<nat, Lookup>) {
    var deps := Declared(item);
    item.state == Closed || item.refusingLabel.Some? || deps.Err? || Answered(deps.value, item.number, roadmap, answers)
  }

  lemma InformedStays(item: RoadmapIssue, roadmap: map<nat, State>, answers: map<nat, Lookup>, more: map<nat, Lookup>)
    requires Informed(item, roadmap, answers) && Extends(more, answers)
    ensures Informed(item, roadmap, more) && Assess(item, roadmap, more) == Assess(item, roadmap, answers)
  {
    var deps := Declared(item);
    if deps.Ok? && Answered(deps.value, item.number, roadmap, answers) {
      AnswersStay(deps.value, item.number, roadmap, answers, more);
    }
  }

  predicate Distinct(items: seq<RoadmapIssue>) {
    forall i, j :: 0 <= i < j < |items| ==> items[i].number != items[j].number
  }

  /** The selection falls on item k: everything before it is skipped, for the reasons listed. */
  ghost predicate SkipsTo(items: seq<RoadmapIssue>, k: nat, skips: seq<(nat, Skip)>, roadmap: map<nat, State>,
                          answers: map<nat, Lookup>)
    requires k <= |items|
  {
    && |skips| == k
    && forall i :: 0 <= i < k ==>
         && skips[i].0 == items[i].number
         && Assess(items[i], roadmap, answers) == Skipped(skips[i].1)
  }

  /** Nothing before item k was decided without an answer. */
  ghost predicate InformedBefore(items: seq<RoadmapIssue>, k: nat, roadmap: map<nat, State>, answers: map<nat, Lookup>)
    requires k <= |items|
  {
    forall i :: 0 <= i < k ==> Informed(items[i], roadmap, answers)
  }

  lemma SkipsStay(items: seq<RoadmapIssue>, k: nat, skips: seq<(nat, Skip)>, roadmap: map<nat, State>,
                  answers: map<nat, Lookup>, more: map<nat, Lookup>)
    requires k <= |items| && SkipsTo(items, k, skips, roadmap, answers) && Extends(more, answers)
    requires InformedBefore(items, k, roadmap, answers)
    ensures SkipsTo(items, k, skips, roadmap, more) && InformedBefore(items, k, roadmap, more)
  {
    forall i | 0 <= i < k
      ensures Informed(items[i], roadmap, more) && Assess(items[i], roadmap, more) == Assess(items[i], roadmap, answers)
    {
      InformedStays(items[i], roadmap, answers, more);
    }
  }

  /** A selection for fixed answers: the first issue that is not skipped is the one selected
      or the one whose error ends the search. */
  ghost predicate SelectsFirst(items: seq<RoadmapIssue>, r: Result<Selection>, answers: map<nat, Lookup>) {
    var roadmap := ByNumber(items);
    exists k: nat, skips ::
      k <= |items| && SkipsTo(items, k, skips, roadmap, answers) && StopsAt(items, k, skips, r, answers)
  }

  ghost predicate StopsAt(items: seq<RoadmapIssue>, k: nat, skips: seq<(nat, Skip)>, r: Result<Selection>,
                          answers: map<nat, Lookup>)
    requires k <= |items|
  {
    if k == |items| then r == Ok(Selection(None, skips))
    else
      match Assess(items[k], ByNumber(items), answers)
      case Ready => r == Ok(Selection(Some(items[k].number), skips))
      case Failed(error) => r == Err(error)
      case Skipped(_) => false
  }

  method Index(items: seq<RoadmapIssue>) returns (r: Result<map<nat, State>>)
    ensures Distinct(items) ==> r == Ok(ByNumber(items))
    ensures !Distinct(items) ==>
              r.Err? && exists i, j :: 0 <= i < j < |items| && items[i].number == items[j].number
                                       && r.error == Duplicate(items[j].number)
  {
    var byNumber: map<nat, State> := map[];
    for i := 0 to |items|
      invariant byNumber == ByNumber(items[..i]) && Distinct(items[..i])
      invariant forall n :: n in byNumber <==> exists j :: 0 <= j < i && items[j].number == n
    {
      assert items[..i + 1][..i] == items[..i];
      if items[i].number in byNumber {
        var j :| 0 <= j < i && items[j].number == items[i].number;
        return Err(Duplicate(items[i].number));
      }
      byNumber := byNumber[items[i].number := items[i].state];
    }
    assert items[..|items|] == items;
    r := Ok(byNumber);
  }

  /** The same, when every answer that was needed on the way has been given. */
  ghost predicate SelectsInformed(items: seq<RoadmapIssue>, r: Result<Selection>, answers: map<nat, Lookup>) {
    var roadmap := ByNumber(items);
    exists k: nat, skips ::
      k <= |items| && SkipsTo(items, k, skips, roadmap, answers) && StopsAt(items, k, skips, r, answers)
      && InformedBefore(items, StopEnd(items, k), roadmap, answers)
  }

  /** The end of what the search looked at when it stopped at item k. */
  function StopEnd(items: seq<RoadmapIssue>, k: nat): nat
    requires k <= |items|
  {
    if k < |items| then k + 1 else k
  }

  /** A provider whose answer does not depend on when it is asked. */
  ghost predicate Stable(provider: (nat, nat) -> Lookup) {
    forall n, k :: provider(n, k) == provider(n, 0)
  }

  /** Selects the next issue. Every dependency outside the roadmap that the decision needs is
      asked of the provider, once. Its answers may change from call to call; the result is the
      selection for one fixed answer per issue, namely those left in the cache. A stable
      provider gives the selection without any cache, for all of its answers. */
  method ResolveNextIssue(items: seq<RoadmapIssue>, cache: AuthorityCache) returns (r: Result<Selection>)
    requires cache.Valid() && cache.answers == map[]
    modifies cache
    ensures cache.Valid()
    ensures items == [] ==> r == Err(EmptyRoadmap)
    ensures items != [] && !Distinct(items) ==> r.Err? && r.error.Duplicate?
    ensures items != [] && Distinct(items) ==> SelectsInformed(items, r, cache.answers)
    ensures items != [] && Distinct(items) ==> SelectionMeans(items, r, cache.answers)
    ensures items != [] && Distinct(items) && Stable(cache.provider)
            ==> r == Select(items, AllAnswers(items, cache.provider))
  {
    if items == [] { return Err(EmptyRoadmap); }
    var index := Index(items);
    if index.Err? { return Err(index.error); }
    r := Scan(items, index.value, cache);
    InformedSelectionMeans(items, r, cache.answers);
    if Stable(cache.provider) {
      CacheHoldsAnswers(cache);
      CacheDoesNotMatter(items, r, cache.answers, cache.provider);
    }
  }

  method Scan(items: seq<RoadmapIssue>, roadmap: map<nat, State>, cache: AuthorityCache) returns (r: Result<Selection>)
    requires cache.Valid() && roadmap == ByNumber(items)
    modifies cache
    ensures cache.Valid() && SelectsInformed(items, r, cache.answers)
  {
    var skips := [];
    for k := 0 to |items|
      invariant cache.Valid()
      invariant SkipsTo(items, k, skips, roadmap, cache.answers) && InformedBefore(items, k, roadmap, cache.answers)
    {
      ghost var before := cache.answers;
      var outcome := AssessItem(items[k], roadmap, cache);
      SkipsStay(items, k, skips, roadmap, before, cache.answers);
      if outcome.Skipped? {
        OneMoreSkip(items, k, skips, outcome.reason, roadmap, cache.answers);
        skips := skips + [(items[k].number, outcome.reason)];
        continue;
      }
      r := if outcome.Ready? then Ok(Selection(Some(items[k].number), skips)) else Err(outcome.error);
      Stopped(items, k, skips, r, cache.answers);
      return;
    }
    r := Ok(Selection(None, skips));
    Stopped(items, |items|, skips, r, cache.answers);
  }

  lemma OneMoreSkip(items: seq<RoadmapIssue>, k: nat, skips: seq<(nat, Skip)>, reason: Skip,
                    roadmap: map<nat, State>, answers: map<nat, Lookup>)
    requires k < |items| && SkipsTo(items, k, skips, roadmap, answers) && InformedBefore(items, k, roadmap, answers)
    requires Assess(items[k], roadmap, answers) == Skipped(reason) && Informed(items[k], roadmap, answers)
    ensures SkipsTo(items, k + 1, skips + [(items[k].number, reason)], roadmap, answers)
    ensures InformedBefore(items, k + 1, roadmap, answers)
  {
  }

  lemma Stopped(items: seq<RoadmapIssue>, k: nat, skips: seq<(nat, Skip)>, r: Result<Selection>,
                answers: map<nat, Lookup>)
    requires k <= |items| && SkipsTo(items, k, skips, ByNumber(items), answers)
    requires StopsAt(items, k, skips, r, answers) && InformedBefore(items, k, ByNumber(items), answers)
    requires k < |items| ==> Informed(items[k], ByNumber(items), answers)
    ensures SelectsInformed(items, r, answers)
  {
    var roadmap := ByNumber(items);
    assert InformedBefore(items, StopEnd(items, k), roadmap, answers) by {
      forall i | 0 <= i < StopEnd(items, k) ensures Informed(items[i], roadmap, answers) {}
    }
    assert SkipsTo(items, k, skips, roadmap, answers) && StopsAt(items, k, skips, r, answers);
  }

  method AssessItem(item: RoadmapIssue, roadmap: map<nat, State>, cache: AuthorityCache) returns (outcome: Outcome)
    requires cache.Valid()
    modifies cache
    ensures cache.Valid() && Extends(cache.answers, old(cache.answers))
    ensures outcome == Assess(item, roadmap, cache.answers) && Informed(item, roadmap, cache.answers)
  {
    if item.state == Closed { return Skipped(SkipClosed); }
    if item.refusingLabel.Some? { return Skipped(SkipNotEligible(item.refusingLabel.value)); }
    var deps := DeclaredDependencies(item);
    if deps.Err? { return Failed(deps.error); }
    var open := cache.OpenDependencies(deps.value, item.number, roadmap);
    if open.Err? { return Failed(open.error); }
    outcome := if open.value != [] then Skipped(SkipBlocked(open.value)) else Ready;
  }

  /** The selection for fixed answers, resumed at item k. */
  function SelectFrom(items: seq<RoadmapIssue>, k: nat, skips: seq<(nat, Skip)>,
                      answers: map<nat, Lookup>): Result<Selection>
    requires k <= |items|
    decreases |items| - k
  {
    if k == |items| then Ok(Selection(None, skips))
    else
      match Assess(items[k], ByNumber(items), answers)
      case Ready => Ok(Selection(Some(items[k].number), skips))
      case Failed(error) => Err(error)
      case Skipped(reason) => SelectFrom(items, k + 1, skips + [(items[k].number, reason)], answers)
  }

  function Select(items: seq<RoadmapIssue>, answers: map<nat, Lookup>): Result<Selection> {
    SelectFrom(items, 0, [], answers)
  }

  lemma {:induction false} SelectReaches(items: seq<RoadmapIssue>, at: nat, k: nat, skips: seq<(nat, Skip)>,
                                         r: Result<Selection>, answers: map<nat, Lookup>)
    requires at <= k <= |items| && SkipsTo(items, k, skips, ByNumber(items), answers)
    requires StopsAt(items, k, skips, r, answers)
    ensures SelectFrom(items, at, skips[..at], answers) == r
    decreases k - at
  {
    if at < k {
      assert skips[..at + 1] == skips[..at] + [skips[at]];
      SelectReaches(items, at + 1, k, skips, r, answers);
    } else {
      assert skips[..at] == skips;
    }
  }

  lemma {:induction false} SelectStops(items: seq<RoadmapIssue>, at: nat, skips: seq<(nat, Skip)>,
                                       answers: map<nat, Lookup>)
    requires at <= |items| && SkipsTo(items, at, skips, ByNumber(items), answers)
    ensures SelectsFirst(items, SelectFrom(items, at, skips, answers), answers)
    decreases |items| - at
  {
    if at < |items| && Assess(items[at], ByNumber(items), answers).Skipped? {
      var reason := Assess(items[at], ByNumber(items), answers).reason;
      SelectStops(items, at + 1, skips + [(items[at].number, reason)], answers);
    } else {
      assert StopsAt(items, at, skips, SelectFrom(items, at, skips, answers), answers);
    }
  }

  /** The declarative selection is one result, the one the scan computes. */
  lemma SelectionIsUnique(items: seq<RoadmapIssue>, r: Result<Selection>, answers: map<nat, Lookup>)
    ensures SelectsFirst(items, r, answers) <==> r == Select(items, answers)
  {
    if SelectsFirst(items, r, answers) {
      var k: nat, skips :|
        k <= |items| && SkipsTo(items, k, skips, ByNumber(items), answers) && StopsAt(items, k, skips, r, answers);
      SelectReaches(items, 0, k, skips, r, answers);
    }
    SelectStops(items, 0, [], answers);
  }

  // ---------- the cache does not matter ----------

  /** The provider's answers for every issue that any declaration names. */
  function AllAnswers(items: seq<RoadmapIssue>, provider: (nat, nat) -> Lookup): map<nat, Lookup> {
    map n | n in AllNames(items) :: provider(n, 0)
  }

  function AllNames(items: seq<RoadmapIssue>): set<nat> {
    if items == [] then {} else AllNames(items[1..]) + Names(items[0].declarations)
  }

  lemma {:induction false} NamesAreIn(items: seq<RoadmapIssue>, k: nat)
    requires k < |items|
    ensures Names(items[k].declarations) <= AllNames(items)
  {
    if k > 0 { NamesAreIn(items[1..], k - 1); }
  }

  lemma {:induction false} AllAnswered(deps: seq<nat>, candidate: nat, roadmap: map<nat, State>,
                                       answers: map<nat, Lookup>)
    requires forall d :: d in deps ==> d in answers
    ensures Answered(deps, candidate, roadmap, answers)
  {
    if deps != [] {
      assert deps == deps[..|deps| - 1] + [deps[|deps| - 1]];
      AllAnswered(deps[..|deps| - 1], candidate, roadmap, answers);
    }
  }

  lemma FullyInformed(items: seq<RoadmapIssue>, k: nat, answers: map<nat, Lookup>)
    requires k < |items| && forall n :: n in AllNames(items) ==> n in answers
    ensures Informed(items[k], ByNumber(items), answers)
  {
    var item := items[k];
    NamesAreIn(items, k);
    AscendingMembers(Names(item.declarations) - {item.number});
    AllAnswered(Ascending(Names(item.declarations) - {item.number}), item.number, ByNumber(items), answers);
  }

  /** More answers do not change a selection that had all it needed. */
  lemma SelectionStays(items: seq<RoadmapIssue>, r: Result<Selection>, answers: map<nat, Lookup>,
                       more: map<nat, Lookup>)
    requires SelectsInformed(items, r, answers) && Extends(more, answers)
    ensures r == Select(items, more)
  {
    var k: nat, skips :| k <= |items| && SkipsTo(items, k, skips, ByNumber(items), answers)
                         && StopsAt(items, k, skips, r, answers)
                         && InformedBefore(items, StopEnd(items, k), ByNumber(items), answers);
    SkipsStay(items, k, skips, ByNumber(items), answers, more);
    if k < |items| { InformedStays(items[k], ByNumber(items), answers, more); }
    assert StopsAt(items, k, skips, r, more);
    SelectionIsUnique(items, r, more);
  }

  lemma FullSelectionInformed(items: seq<RoadmapIssue>, answers: map<nat, Lookup>)
    requires forall n :: n in AllNames(items) ==> n in answers
    ensures SelectsInformed(items, Select(items, answers), answers)
  {
    var r := Select(items, answers);
    SelectionIsUnique(items, r, answers);
    var k: nat, skips :|
      k <= |items| && SkipsTo(items, k, skips, ByNumber(items), answers) && StopsAt(items, k, skips, r, answers);
    forall i | 0 <= i < |items| ensures Informed(items[i], ByNumber(items), answers) {
      FullyInformed(items, i, answers);
    }
    Stopped(items, k, skips, r, answers);
  }

  lemma CacheHoldsAnswers(cache: AuthorityCache)
    requires cache.Valid() && Stable(cache.provider)
    ensures forall n :: n in cache.answers ==> cache.answers[n] == cache.provider(n, 0)
  {
    forall n | n in cache.answers ensures cache.answers[n] == cache.provider(n, 0) {
      var i :| 0 <= i < |cache.calls| && cache.calls[i] == n;
      assert cache.provider(n, i) == cache.provider(n, 0);
    }
  }

  /** The selection from the answers that a cache happened to gather is the selection from
      all answers of the provider. */
  lemma CacheDoesNotMatter(items: seq<RoadmapIssue>, r: Result<Selection>, answers: map<nat, Lookup>,
                           provider: (nat, nat) -> Lookup)
    requires SelectsInformed(items, r, answers)
    requires forall n :: n in answers ==> answers[n] == provider(n, 0)
    ensures r == Select(items, AllAnswers(items, provider))
  {
    var all := AllAnswers(items, provider);
    var both := all + answers;
    SelectionStays(items, r, answers, both);
    FullSelectionInformed(items, all);
    SelectionStays(items, Select(items, all), all, both);
  }

  // ---------- what a selection means ----------

  predicate NamesIt(declaration: Declaration, d: nat) {
    declaration.Deps? && (declaration.first == d || d in declaration.rest)
  }

  ghost predicate Declares(item: RoadmapIssue, d: nat) {
    d != item.number && exists k :: 0 <= k < |item.declarations| && NamesIt(item.declarations[k], d)
  }

  /** Some declaration cannot be read, or one denies dependencies that another names. */
  ghost predicate Unclear(item: RoadmapIssue) {
    || (exists k :: 0 <= k < |item.declarations| && item.declarations[k].Ambiguous?)
    || ((exists k :: 0 <= k < |item.declarations| && item.declarations[k].NoDeps?)
        && (exists k :: 0 <= k < |item.declarations| && item.declarations[k].Deps?))
  }

  ghost predicate Listed(items: seq<RoadmapIssue>, d: nat) {
    exists j :: 0 <= j < |items| && items[j].number == d
  }

  /** Closed in the roadmap, or, outside it, by the authority's answer. */
  ghost predicate ClosedDependency(items: seq<RoadmapIssue>, d: nat, answers: map<nat, Lookup>) {
    || (exists j :: 0 <= j < |items| && items[j].number == d && items[j].state == Closed)
    || (!Listed(items, d) && d in answers && answers[d] == Found(d, Closed))
  }

  ghost predicate OpenDependency(items: seq<RoadmapIssue>, d: nat, answers: map<nat, Lookup>) {
    || (exists j :: 0 <= j < |items| && items[j].number == d && items[j].state != Closed)
    || (!Listed(items, d) && d in answers && answers[d] == Found(d, Open))
  }

  predicate Wanted(item: RoadmapIssue) {
    item.state != Closed && item.refusingLabel.None?
  }

  predicate IsAscending(s: seq<nat>) {
    forall i, j :: 0 <= i < j < |s| ==> s[i] < s[j]
  }

  ghost predicate SkipMeans(items: seq<RoadmapIssue>, item: RoadmapIssue, reason: Skip, answers: map<nat, Lookup>) {
    match reason
    case SkipClosed => item.state == Closed
    case SkipNotEligible(refusal) => item.state != Closed && item.refusingLabel == Some(refusal)
    case SkipBlocked(blockers) =>
      && Wanted(item) && !Unclear(item) && blockers != [] && IsAscending(blockers)
      && (forall d :: d in blockers <==> Declares(item, d) && OpenDependency(items, d, answers))
      && (forall d :: Declares(item, d) && d !in blockers ==> ClosedDependency(items, d, answers))
  }

  ghost predicate ReadyMeans(items: seq<RoadmapIssue>, item: RoadmapIssue, answers: map<nat, Lookup>) {
    Wanted(item) && !Unclear(item) && forall d :: Declares(item, d) ==> ClosedDependency(items, d, answers)
  }

  ghost predicate ErrorMeans(items: seq<RoadmapIssue>, item: RoadmapIssue, error: Error, answers: map<nat, Lookup>) {
    Wanted(item) &&
    match error
    case AmbiguousDependencies(n) => n == item.number && Unclear(item)
    case AuthorityAmbiguous(d, candidate, answered) =>
      && candidate == item.number && Declares(item, d) && !Listed(items, d) && answered != d
      && d in answers && answers[d].Found? && answers[d].number == answered
    case AuthorityUnavailable(d, candidate) =>
      && candidate == item.number && Declares(item, d) && !Listed(items, d)
      && d in answers && (answers[d] == LookupFailed || answers[d] == Found(d, Unresolvable))
    case _ => false
  }

  ghost predicate Outcomes(items: seq<RoadmapIssue>, item: RoadmapIssue, outcome: Outcome, answers: map<nat, Lookup>) {
    match outcome
    case Ready => ReadyMeans(items, item, answers)
    case Skipped(reason) => SkipMeans(items, item, reason, answers)
    case Failed(error) => ErrorMeans(items, item, error, answers)
  }

  ghost predicate SomeSkip(items: seq<RoadmapIssue>, item: RoadmapIssue, answers: map<nat, Lookup>) {
    exists reason :: SkipMeans(items, item, reason, answers)
  }

  ghost predicate AllSkipped(items: seq<RoadmapIssue>, k: nat, answers: map<nat, Lookup>)
    requires k <= |items|
  {
    forall i :: 0 <= i < k ==> SomeSkip(items, items[i], answers)
  }

  /** What a selection says of the roadmap and of the authority's answers: each skip gives its
      true reason, the issue selected is open, not refused and waits for nothing, and an error
      names what is wrong with the first issue that is neither. */
  ghost predicate SelectionMeans(items: seq<RoadmapIssue>, r: Result<Selection>, answers: map<nat, Lookup>) {
    match r
    case Ok(s) =>
      var k := |s.skips|;
      && k <= |items|
      && (forall i :: 0 <= i < k ==>
            s.skips[i].0 == items[i].number && SkipMeans(items, items[i], s.skips[i].1, answers))
      && (if k == |items| then s.selected.None?
          else s.selected == Some(items[k].number) && ReadyMeans(items, items[k], answers))
    case Err(error) =>
      exists k: nat :: k < |items| && ErrorMeans(items, items[k], error, answers) && AllSkipped(items, k, answers)
  }

  lemma {:induction false} NamesMean(declarations: seq<Declaration>, d: nat)
    ensures d in Names(declarations) <==> exists k :: 0 <= k < |declarations| && NamesIt(declarations[k], d)
  {
    if declarations != [] {
      var n := |declarations| - 1;
      NamesMean(declarations[..n], d);
      assert declarations == declarations[..n] + [declarations[n]];
      if k :| 0 <= k < |declarations| && NamesIt(declarations[k], d) {
        if k < n { assert NamesIt(declarations[..n][k], d); }
      }
      if k :| 0 <= k < n && NamesIt(declarations[..n][k], d) { assert NamesIt(declarations[k], d); }
    }
  }

  lemma DeclaredMeans(item: RoadmapIssue)
    ensures Declared(item).Err? <==> Unclear(item)
    ensures Declared(item).Err? ==> Declared(item).error == AmbiguousDependencies(item.number)
    ensures Declared(item).Ok? ==>
              && IsAscending(Declared(item).value)
              && forall d :: d in Declared(item).value <==> Declares(item, d)
  {
    var declarations := item.declarations;
    forall d ensures d in Names(declarations) - {item.number} <==> Declares(item, d) { NamesMean(declarations, d); }
    AscendingMembers(Names(declarations) - {item.number});
    if k :| 0 <= k < |declarations| && declarations[k].Deps? {
      NamesMean(declarations, declarations[k].first);
      assert NamesIt(declarations[k], declarations[k].first);
    }
    if d :| d in Names(declarations) { NamesMean(declarations, d); }
  }

  predicate OpenAt(d: nat, roadmap: map<nat, State>, answers: map<nat, Lookup>) {
    if d in roadmap then roadmap[d] != Closed else d in answers && answers[d] == Found(d, Open)
  }

  predicate ClosedAt(d: nat, roadmap: map<nat, State>, answers: map<nat, Lookup>) {
    if d in roadmap then roadmap[d] == Closed else d in answers && answers[d] == Found(d, Closed)
  }

  lemma {:induction false} StillOpenMeans(deps: seq<nat>, candidate: nat, roadmap: map<nat, State>,
                                          answers: map<nat, Lookup>, d: nat)
    requires StillOpen(deps, candidate, roadmap, answers).Ok?
    ensures var open := StillOpen(deps, candidate, roadmap, answers).value;
            && (d in open <==> d in deps && OpenAt(d, roadmap, answers))
            && (d in deps && d !in open ==> ClosedAt(d, roadmap, answers))
  {
    if deps != [] {
      var n := |deps| - 1;
      var before := StillOpen(deps[..n], candidate, roadmap, answers);
      var state := StateOf(deps[n], candidate, roadmap, answers);
      StillOpenMeans(deps[..n], candidate, roadmap, answers, d);
      assert d in deps <==> d in deps[..n] || d == deps[n] by { assert deps == deps[..n] + [deps[n]]; }
      assert StillOpen(deps, candidate, roadmap, answers).value
          == before.value + if state.value == Closed then [] else [deps[n]];
      assert state.value != Closed <==> OpenAt(deps[n], roadmap, answers);
      assert state.value == Closed <==> ClosedAt(deps[n], roadmap, answers);
    }
  }

  lemma {:induction false} StillOpenAscends(deps: seq<nat>, candidate: nat, roadmap: map<nat, State>,
                                            answers: map<nat, Lookup>)
    requires StillOpen(deps, candidate, roadmap, answers).Ok? && IsAscending(deps)
    ensures IsAscending(StillOpen(deps, candidate, roadmap, answers).value)
  {
    if deps != [] {
      var n := |deps| - 1;
      StillOpenAscends(deps[..n], candidate, roadmap, answers);
      var open := StillOpen(deps[..n], candidate, roadmap, answers).value;
      forall i | 0 <= i < |open| ensures open[i] < deps[n] {
        StillOpenMeans(deps[..n], candidate, roadmap, answers, open[i]);
        assert open[i] in open;
        var j :| 0 <= j < n && deps[..n][j] == open[i];
        assert deps[j] < deps[n];
      }
    }
  }

  lemma {:induction false} FirstErrorMeans(deps: seq<nat>, candidate: nat, roadmap: map<nat, State>,
                                           answers: map<nat, Lookup>)
    requires StillOpen(deps, candidate, roadmap, answers).Err? && Answered(deps, candidate, roadmap, answers)
    ensures exists d :: d in deps && d !in roadmap && d in answers &&
              match StillOpen(deps, candidate, roadmap, answers).error
              case AuthorityAmbiguous(x, c, m) =>
                x == d && c == candidate && m != d && answers[d].Found? && answers[d].number == m
              case AuthorityUnavailable(x, c) =>
                x == d && c == candidate && (answers[d] == LookupFailed || answers[d] == Found(d, Unresolvable))
              case _ => false
  {
    var n := |deps| - 1;
    assert deps == deps[..n] + [deps[n]];
    if StillOpen(deps[..n], candidate, roadmap, answers).Err? {
      FirstErrorMeans(deps[..n], candidate, roadmap, answers);
    } else {
      assert deps[n] in deps;
    }
  }

  lemma IndexMeans(items: seq<RoadmapIssue>, d: nat)
    requires Distinct(items)
    ensures d in ByNumber(items) <==> Listed(items, d)
    ensures d in ByNumber(items) ==>
              forall j :: 0 <= j < |items| && items[j].number == d ==> items[j].state == ByNumber(items)[d]
  {
    SameNumbers(items);
    if d in ByNumber(items) {
      var i := Located(items, d);
    }
  }

  /** Assessing an issue means what its outcome says. */
  lemma AssessMeans(items: seq<RoadmapIssue>, item: RoadmapIssue, answers: map<nat, Lookup>)
    requires Distinct(items) && Informed(item, ByNumber(items), answers)
    ensures Outcomes(items, item, Assess(item, ByNumber(items), answers), answers)
  {
    if Wanted(item) {
      DeclaredMeans(item);
      if Declared(item).Ok? {
        var deps, roadmap := Declared(item).value, ByNumber(items);
        if StillOpen(deps, item.number, roadmap, answers).Ok? {
          forall d ensures d in StillOpen(deps, item.number, roadmap, answers).value
                           <==> d in deps && OpenAt(d, roadmap, answers)
          {
            StillOpenMeans(deps, item.number, roadmap, answers, d);
          }
          forall d | d in deps && d !in StillOpen(deps, item.number, roadmap, answers).value
            ensures ClosedAt(d, roadmap, answers)
          {
            StillOpenMeans(deps, item.number, roadmap, answers, d);
          }
          StillOpenAscends(deps, item.number, roadmap, answers);
        } else {
          FirstErrorMeans(deps, item.number, roadmap, answers);
        }
        forall d ensures (d in roadmap <==> Listed(items, d)) &&
                         (d in roadmap ==> (roadmap[d] == Closed <==> ClosedDependency(items, d, answers))
                                           && (roadmap[d] != Closed <==> OpenDependency(items, d, answers)))
        {
          IndexMeans(items, d);
        }
      }
    }
  }

  lemma InformedSelectionMeans(items: seq<RoadmapIssue>, r: Result<Selection>, answers: map<nat, Lookup>)
    requires Distinct(items) && SelectsInformed(items, r, answers)
    ensures SelectionMeans(items, r, answers)
  {
    var k: nat, skips: seq<(nat, Skip)> :|
      k <= |items| && SkipsTo(items, k, skips, ByNumber(items), answers)
      && StopsAt(items, k, skips, r, answers)
      && InformedBefore(items, StopEnd(items, k), ByNumber(items), answers);
    forall i | 0 <= i < k ensures SkipMeans(items, items[i], skips[i].1, answers) {
      AssessMeans(items, items[i], answers);
    }
    if k < |items| { AssessMeans(items, items[k], answers); }
    assert AllSkipped(items, k, answers) by {
      forall i | 0 <= i < k ensures SomeSkip(items, items[i], answers) {
        assert SkipMeans(items, items[i], skips[i].1, answers);
      }
    }
    if r.Err? { assert ErrorMeans(items, items[k], r.error, answers); }
  }

  // ---------- draining ----------

  function DepsOf(item: RoadmapIssue): set<nat> {
    Names(item.declarations) - {item.number}
  }

  function NeedsOf(items: seq<RoadmapIssue>): map<nat, set<nat>> {
    if items == [] then map[]
    else NeedsOf(items[..|items| - 1])[items[|items| - 1].number := DepsOf(items[|items| - 1])]
  }

  function OpenIn(items: seq<RoadmapIssue>): set<nat> {
    set i | 0 <= i < |items| && items[i].state != Closed :: items[i].number
  }

  lemma {:induction false} SameNumbers(items: seq<RoadmapIssue>)
    ensures forall n :: n in ByNumber(items) <==> n in NeedsOf(items)
    ensures forall i :: 0 <= i < |items| ==> items[i].number in ByNumber(items)
  {
    if items != [] {
      SameNumbers(items[..|items| - 1]);
      assert forall i :: 0 <= i < |items| - 1 ==> items[i] == items[..|items| - 1][i];
    }
  }

  lemma {:induction false} Located(items: seq<RoadmapIssue>, n: nat) returns (i: nat)
    requires n in ByNumber(items)
    ensures i < |items| && items[i].number == n && ByNumber(items)[n] == items[i].state
  {
    i := |items| - 1;
    if items[i].number != n { i := Located(items[..i], n); }
  }

  lemma {:induction false} IndexedAt(items: seq<RoadmapIssue>, i: nat)
    requires Distinct(items) && i < |items|
    ensures items[i].number in ByNumber(items) && ByNumber(items)[items[i].number] == items[i].state
    ensures items[i].number in NeedsOf(items) && NeedsOf(items)[items[i].number] == DepsOf(items[i])
  {
    var last := |items| - 1;
    if i < last {
      assert items[..last][i] == items[i];
      IndexedAt(items[..last], i);
    }
  }

  ghost predicate CleanItem(item: RoadmapIssue, items: seq<RoadmapIssue>, answers: map<nat, Lookup>) {
    && item.refusingLabel.None? && !Contradicts(item.declarations)
    && forall d :: d in DepsOf(item) ==> d in NeedsOf(items) || (d in answers && answers[d] == Found(d, Closed))
  }

  /** No label refuses an issue, every declaration is clear, and whatever lies outside the
      roadmap is closed. */
  ghost predicate Clean(items: seq<RoadmapIssue>, answers: map<nat, Lookup>) {
    && Distinct(items)
    && forall i :: 0 <= i < |items| ==> CleanItem(items[i], items, answers)
  }

  lemma {:induction false} OnlyOpenRemain(deps: seq<nat>, candidate: nat, roadmap: map<nat, State>,
                                          answers: map<nat, Lookup>)
    requires forall d :: d in deps ==> d in roadmap || (d in answers && answers[d] == Found(d, Closed))
    ensures StillOpen(deps, candidate, roadmap, answers).Ok?
    ensures forall d :: d in StillOpen(deps, candidate, roadmap, answers).value
              <==> d in deps && d in roadmap && roadmap[d] != Closed
  {
    if deps != [] {
      var front, last := deps[..|deps| - 1], deps[|deps| - 1];
      assert deps == front + [last];
      OnlyOpenRemain(front, candidate, roadmap, answers);
    }
  }

  /** In a clean roadmap an open issue is ready exactly when none of its dependencies is open. */
  lemma CleanAssess(items: seq<RoadmapIssue>, k: nat, answers: map<nat, Lookup>)
    requires Clean(items, answers) && k < |items|
    ensures !Assess(items[k], ByNumber(items), answers).Failed?
    ensures Assess(items[k], ByNumber(items), answers).Ready?
            <==> items[k].state != Closed && DepsOf(items[k]) !! OpenIn(items)
  {
    var item := items[k];
    var deps := Ascending(DepsOf(item));
    assert CleanItem(item, items, answers);
    SameNumbers(items);
    AscendingMembers(DepsOf(item));
    OnlyOpenRemain(deps, item.number, ByNumber(items), answers);
    OpenStates(items);
    var open := StillOpen(deps, item.number, ByNumber(items), answers).value;
    if open != [] {
      assert open[0] in DepsOf(item) && open[0] in OpenIn(items);
    } else {
      forall d | d in DepsOf(item) ensures d !in OpenIn(items) {
        assert d !in open;
      }
    }
  }

  lemma OpenStates(items: seq<RoadmapIssue>)
    requires Distinct(items)
    ensures forall n :: n in OpenIn(items) <==> n in ByNumber(items) && ByNumber(items)[n] != Closed
  {
    forall n | n in ByNumber(items) && ByNumber(items)[n] != Closed ensures n in OpenIn(items) {
      var i := Located(items, n);
    }
    forall n | n in OpenIn(items) ensures n in ByNumber(items) && ByNumber(items)[n] != Closed {
      var i :| 0 <= i < |items| && items[i].state != Closed && items[i].number == n;
      IndexedAt(items, i);
    }
  }

  /** What a selection in a clean roadmap means for the dependency graph. */
  lemma SelectedIsFree(items: seq<RoadmapIssue>, answers: map<nat, Lookup>)
    requires Clean(items, answers)
    ensures var r := Select(items, answers);
            && r.Ok?
            && (r.value.selected.None? <==> AllBlocked(NeedsOf(items), OpenIn(items)))
            && (r.value.selected.Some? ==> Free(NeedsOf(items), OpenIn(items), r.value.selected.value))
  {
    var r := Select(items, answers);
    SelectionIsUnique(items, r, answers);
    var k: nat, skips :|
      k <= |items| && SkipsTo(items, k, skips, ByNumber(items), answers) && StopsAt(items, k, skips, r, answers);
    if k < |items| {
      IndexedAt(items, k);
      CleanAssess(items, k, answers);
      assert items[k].number in OpenIn(items);
      assert Free(NeedsOf(items), OpenIn(items), items[k].number);
    } else {
      forall n | n in OpenIn(items) ensures !Free(NeedsOf(items), OpenIn(items), n) {
        var i :| 0 <= i < |items| && items[i].state != Closed && items[i].number == n;
        IndexedAt(items, i);
        CleanAssess(items, i, answers);
      }
    }
  }

  predicate Free(needs: map<nat, set<nat>>, open: set<nat>, n: nat) {
    n in open && n in needs && needs[n] !! open
  }

  ghost predicate AllBlocked(needs: map<nat, set<nat>>, open: set<nat>) {
    forall n :: n in open ==> !Free(needs, open, n)
  }

  function Close(items: seq<RoadmapIssue>, n: nat): seq<RoadmapIssue> {
    if items == [] then []
    else
      var last := items[|items| - 1];
      Close(items[..|items| - 1], n) + [if last.number == n then last.(state := Closed) else last]
  }

  lemma {:induction false} CloseAt(items: seq<RoadmapIssue>, n: nat, i: nat)
    requires i < |items|
    ensures |Close(items, n)| == |items|
    ensures Close(items, n)[i] == if items[i].number == n then items[i].(state := Closed) else items[i]
  {
    var front := items[..|items| - 1];
    if i < |front| {
      CloseAt(front, n, i);
      assert front[i] == items[i];
    } else {
      CloseLength(front, n);
    }
  }

  lemma {:induction false} CloseLength(items: seq<RoadmapIssue>, n: nat)
    ensures |Close(items, n)| == |items|
  {
    if items != [] { CloseLength(items[..|items| - 1], n); }
  }

  lemma {:induction false} CloseNeeds(items: seq<RoadmapIssue>, n: nat)
    ensures NeedsOf(Close(items, n)) == NeedsOf(items)
  {
    if items != [] {
      CloseNeeds(items[..|items| - 1], n);
      var closed := Close(items, n);
      assert closed[..|closed| - 1] == Close(items[..|items| - 1], n);
    }
  }

  lemma CloseDistinct(items: seq<RoadmapIssue>, n: nat)
    requires Distinct(items)
    ensures Distinct(Close(items, n))
  {
    CloseLength(items, n);
    forall i, j | 0 <= i < j < |items| ensures Close(items, n)[i].number != Close(items, n)[j].number {
      CloseAt(items, n, i);
      CloseAt(items, n, j);
    }
  }

  lemma CloseOpen(items: seq<RoadmapIssue>, n: nat)
    ensures OpenIn(Close(items, n)) == OpenIn(items) - {n}
  {
    CloseLength(items, n);
    var closed := Close(items, n);
    forall m | m in OpenIn(items) - {n} ensures m in OpenIn(closed) {
      var i :| 0 <= i < |items| && items[i].state != Closed && items[i].number == m;
      CloseAt(items, n, i);
    }
    forall m | m in OpenIn(closed) ensures m in OpenIn(items) - {n} {
      var i :| 0 <= i < |closed| && closed[i].state != Closed && closed[i].number == m;
      CloseAt(items, n, i);
    }
  }

  lemma CloseClean(items: seq<RoadmapIssue>, n: nat, answers: map<nat, Lookup>)
    requires Clean(items, answers)
    ensures Clean(Close(items, n), answers)
  {
    CloseLength(items, n);
    CloseDistinct(items, n);
    CloseNeeds(items, n);
    forall i | 0 <= i < |items| ensures CleanItem(Close(items, n)[i], Close(items, n), answers) {
      CloseAt(items, n, i);
      CloseItemClean(items[i], Close(items, n)[i], items, Close(items, n), answers);
    }
  }

  lemma CloseItemClean(item: RoadmapIssue, closed: RoadmapIssue, items: seq<RoadmapIssue>, after: seq<RoadmapIssue>,
                       answers: map<nat, Lookup>)
    requires CleanItem(item, items, answers) && (closed == item || closed == item.(state := Closed))
    requires NeedsOf(after) == NeedsOf(items)
    ensures CleanItem(closed, after, answers)
  {
    assert DepsOf(closed) == DepsOf(item);
  }

  /** Select, close what was selected, and repeat until nothing is selected. */
  ghost function Drain(items: seq<RoadmapIssue>, answers: map<nat, Lookup>): seq<nat>
    requires Clean(items, answers)
    decreases |OpenIn(items)|
  {
    SelectedIsFree(items, answers);
    var selected := Select(items, answers).value.selected;
    if selected.None? then []
    else
      CloseClean(items, selected.value, answers);
      CloseOpen(items, selected.value);
      [selected.value] + Drain(Close(items, selected.value), answers)
  }

  /** Each issue of the order is open and free once those before it are closed. */
  predicate Topological(needs: map<nat, set<nat>>, open: set<nat>, order: seq<nat>) {
    order == [] ||
    (Free(needs, open, order[0]) && Topological(needs, open - {order[0]}, order[1..]))
  }

  function Remaining(open: set<nat>, order: seq<nat>): set<nat> {
    if order == [] then open else Remaining(open - {order[0]}, order[1..])
  }

  /** Draining always runs in dependency order, and stops only where every issue left waits
      for another one left. */
  lemma {:induction false} DrainInOrder(items: seq<RoadmapIssue>, answers: map<nat, Lookup>)
    requires Clean(items, answers)
    ensures Topological(NeedsOf(items), OpenIn(items), Drain(items, answers))
    ensures AllBlocked(NeedsOf(items), Remaining(OpenIn(items), Drain(items, answers)))
    decreases |OpenIn(items)|
  {
    SelectedIsFree(items, answers);
    var selected := Select(items, answers).value.selected;
    if selected.Some? {
      CloseClean(items, selected.value, answers);
      CloseOpen(items, selected.value);
      CloseNeeds(items, selected.value);
      DrainInOrder(Close(items, selected.value), answers);
      var order := Drain(items, answers);
      assert order[1..] == Drain(Close(items, selected.value), answers);
    }
  }

  lemma {:induction false} RemainingIs(needs: map<nat, set<nat>>, open: set<nat>, order: seq<nat>)
    requires Topological(needs, open, order)
    ensures Remaining(open, order) == open - (set n | n in order)
    ensures |Remaining(open, order)| == |open| - |order|
  {
    if order != [] {
      RemainingIs(needs, open - {order[0]}, order[1..]);
      assert order == [order[0]] + order[1..];
      assert (set n | n in order) == {order[0]} + (set n | n in order[1..]);
    }
  }

  /** Every dependency that was open comes earlier in the order. */
  lemma {:induction false} DependenciesFirst(needs: map<nat, set<nat>>, open: set<nat>, order: seq<nat>, i: nat, d: nat)
    requires Topological(needs, open, order) && i < |order|
    requires order[i] in needs && d in needs[order[i]] && d in open
    ensures d in order[..i]
  {
    if i > 0 {
      assert order[..i] == [order[0]] + order[1..][..i - 1];
      if d != order[0] {
        DependenciesFirst(needs, open - {order[0]}, order[1..], i - 1, d);
      }
    }
  }

  /** The dependencies among open issues are acyclic: some rank decreases along each. */
  ghost predicate Ranked(needs: map<nat, set<nat>>, open: set<nat>, rank: map<nat, nat>) {
    forall n, d :: n in open && n in needs && d in needs[n] && d in open ==> n in rank && d in rank && rank[d] < rank[n]
  }

  ghost predicate Acyclic(needs: map<nat, set<nat>>, open: set<nat>) {
    exists rank :: Ranked(needs, open, rank)
  }

  lemma {:induction false} LowestRank(open: set<nat>, rank: map<nat, nat>) returns (lowest: nat)
    requires open != {}
    ensures lowest in open && forall n :: n in open && n in rank && lowest in rank ==> rank[lowest] <= rank[n]
    ensures lowest !in rank ==> forall n :: n in open ==> n !in rank
  {
    var n :| n in open;
    if open == {n} {
      lowest := n;
    } else {
      lowest := LowestRank(open - {n}, rank);
      if n in rank && (lowest !in rank || rank[n] < rank[lowest]) { lowest := n; }
      assert forall m :: m in open ==> m == n || m in open - {n};
    }
  }

  /** Where dependencies are acyclic, some open issue is free. */
  lemma SomeFree(needs: map<nat, set<nat>>, open: set<nat>, rank: map<nat, nat>)
    requires open != {} && Ranked(needs, open, rank) && forall n :: n in open ==> n in needs
    ensures !AllBlocked(needs, open)
  {
    var lowest := LowestRank(open, rank);
    assert Free(needs, open, lowest);
  }

  /** The position in the order, one-based from the end of what is left. */
  function RankAlong(order: seq<nat>): map<nat, nat> {
    if order == [] then map[]
    else RankAlong(order[..|order| - 1])[order[|order| - 1] := |order|]
  }

  lemma {:induction false} RankAlongIs(order: seq<nat>)
    requires forall i, j :: 0 <= i < j < |order| ==> order[i] != order[j]
    ensures forall n :: n in RankAlong(order) <==> n in order
    ensures forall i :: 0 <= i < |order| ==> order[i] in RankAlong(order) && RankAlong(order)[order[i]] == i + 1
  {
    if order != [] {
      RankAlongIs(order[..|order| - 1]);
      assert order == order[..|order| - 1] + [order[|order| - 1]];
    }
  }

  lemma {:induction false} OrderDistinct(needs: map<nat, set<nat>>, open: set<nat>, order: seq<nat>)
    requires Topological(needs, open, order)
    ensures forall i :: 0 <= i < |order| ==> order[i] in open
    ensures forall i, j :: 0 <= i < j < |order| ==> order[i] != order[j]
  {
    if order != [] {
      OrderDistinct(needs, open - {order[0]}, order[1..]);
      assert forall i :: 1 <= i < |order| ==> order[i] == order[1..][i - 1];
    }
  }

  lemma OrderRanks(needs: map<nat, set<nat>>, open: set<nat>, order: seq<nat>)
    requires Topological(needs, open, order) && forall n :: n in open ==> n in order
    ensures Ranked(needs, open, RankAlong(order))
  {
    OrderDistinct(needs, open, order);
    RankAlongIs(order);
    var rank := RankAlong(order);
    forall n, d | n in open && n in needs && d in needs[n] && d in open
      ensures n in rank && d in rank && rank[d] < rank[n]
    {
      var i :| 0 <= i < |order| && order[i] == n;
      DependenciesFirst(needs, open, order, i, d);
      var j :| 0 <= j < i && order[..i][j] == d;
      assert order[j] == d;
    }
  }

  lemma OpenAreIndexed(items: seq<RoadmapIssue>)
    ensures forall n :: n in OpenIn(items) ==> n in NeedsOf(items)
  {
    SameNumbers(items);
  }

  lemma SubsetRanked(needs: map<nat, set<nat>>, open: set<nat>, fewer: set<nat>, rank: map<nat, nat>)
    requires Ranked(needs, open, rank) && fewer <= open
    ensures Ranked(needs, fewer, rank)
  {
  }

  lemma OrderCovers(needs: map<nat, set<nat>>, open: set<nat>, order: seq<nat>)
    requires Topological(needs, open, order)
    ensures |order| == |open| <==> Remaining(open, order) == {}
    ensures Remaining(open, order) == {} <==> forall n :: n in open ==> n in order
  {
    RemainingIs(needs, open, order);
    var left, done := Remaining(open, order), set n | n in order;
    assert left == open - done;
    if left == {} {
      forall n | n in open ensures n in order {
        assert n !in left;
      }
    } else {
      var n :| n in left;
      assert n in open && n !in done;
    }
  }

  /** A maximal order in which dependencies come first misses nothing exactly when the
      graph is acyclic. */
  lemma CoversExactlyWhenAcyclic(needs: map<nat, set<nat>>, open: set<nat>, order: seq<nat>)
    requires Topological(needs, open, order) && AllBlocked(needs, Remaining(open, order))
    requires forall n :: n in open ==> n in needs
    ensures Remaining(open, order) == {} <==> Acyclic(needs, open)
  {
    OrderCovers(needs, open, order);
    var left := Remaining(open, order);
    if left == {} {
      OrderRanks(needs, open, order);
    } else if Acyclic(needs, open) {
      var rank :| Ranked(needs, open, rank);
      RemainingIs(needs, open, order);
      SubsetRanked(needs, open, left, rank);
      SomeFree(needs, left, rank);
    }
  }

  /** Repeated selection closes every open issue, in as many steps as there were open
      issues, exactly when the dependencies among them are acyclic. */
  lemma DrainsExactlyWhenAcyclic(items: seq<RoadmapIssue>, answers: map<nat, Lookup>)
    requires Clean(items, answers)
    ensures (|Drain(items, answers)| == |OpenIn(items)|) <==> Acyclic(NeedsOf(items), OpenIn(items))
    ensures |Drain(items, answers)| == |OpenIn(items)|
            <==> forall n :: n in OpenIn(items) ==> n in Drain(items, answers)
  {
    DrainInOrder(items, answers);
    OpenAreIndexed(items);
    OrderCovers(NeedsOf(items), OpenIn(items), Drain(items, answers));
    CoversExactlyWhenAcyclic(NeedsOf(items), OpenIn(items), Drain(items, answers));
  }
}
