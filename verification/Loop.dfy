/** Claiming the next issue of a run, yielding it, and containing an issue's failure. */
module Loop {
  import opened Sets
  import opened Text

  const MAX_SKIPS: nat := 100

  datatype Kind = BlockedKind | YieldedKind | OtherKind

  datatype Deferral = Deferral(issue: int, kind: Kind)

  datatype Status = Running | Idle | Interrupted | OtherStatus

  /** The durable state of a run. A lease is a token; `skips` are the scheduler's. */
  datatype LoopState = LoopState(
    status: Status, activeIssue: Option<int>, activeWorkspace: Option<string>, activeLease: Option<nat>,
    completed: set<int>, deferred: seq<Deferral>, skips: seq<int>, remaining: nat)
  {
    predicate Persisted() {
      activeIssue.Some? || activeWorkspace.Some? || activeLease.Some?
    }

    predicate Complete() {
      && activeIssue.Some? && activeIssue.value > 0
      && activeWorkspace.Some? && activeWorkspace.value != ""
      && activeLease.Some?
    }

    function Deactivated(): LoopState {
      this.(activeIssue := None, activeWorkspace := None, activeLease := None)
    }

    function Excluded(): set<int> {
      completed + DeferredIssues(deferred) + SetOf(skips)
    }
  }

  function SetOf(s: seq<int>): set<int> {
    set x | x in s
  }

  function DeferredIssues(deferred: seq<Deferral>): set<int> {
    set d | d in deferred :: d.issue
  }

  // ---------- the bounded exclusion list ----------

  function Without(skips: seq<int>, issue: int): seq<int> {
    if skips == [] then []
    else if skips[0] == issue then Without(skips[1..], issue)
    else [skips[0]] + Without(skips[1..], issue)
  }

  /** `slice(-100)` */
  function LastOf(s: seq<int>, n: nat): seq<int> {
    if |s| <= n then s else s[|s| - n..]
  }

  /** The list after one more issue was found leased elsewhere. */
  function WithSkip(skips: seq<int>, issue: int): seq<int> {
    LastOf(Without(skips, issue) + [issue], MAX_SKIPS)
  }

  /** The scheduler's record of a skip: the caller's list is spliced in place. */
  class SkipList {
    var skips: seq<int>

    constructor (initial: seq<int>)
      ensures skips == initial
    {
      skips := initial;
    }

    method RecordSchedulerSkip(issue: int)
      modifies this
      ensures skips == WithSkip(old(skips), issue)
      ensures skips != [] && skips[|skips| - 1] == issue && |skips| <= MAX_SKIPS
      ensures issue !in skips[..|skips| - 1]
    {
      WithoutIssue(skips, issue);
      var next := Without(skips, issue) + [issue];
      skips := if |next| > MAX_SKIPS then next[|next| - MAX_SKIPS..] else next;
    }
  }

  lemma {:induction false} WithoutIssue(skips: seq<int>, issue: int)
    ensures issue !in Without(skips, issue) && |Without(skips, issue)| <= |skips|
    ensures forall x :: x in Without(skips, issue) <==> x in skips && x != issue
  {
    if skips != [] { WithoutIssue(skips[1..], issue); }
  }

  lemma {:induction false} WithoutAbsent(skips: seq<int>, issue: int)
    requires issue !in skips
    ensures Without(skips, issue) == skips
  {
    if skips != [] {
      WithoutAbsent(skips[1..], issue);
      assert skips == [skips[0]] + skips[1..];
    }
  }

  function AfterSkips(skips: seq<int>, picks: seq<int>): seq<int> {
    if picks == [] then skips
    else WithSkip(AfterSkips(skips, picks[..|picks| - 1]), picks[|picks| - 1])
  }

  /** A run of conflicts within one call: each pick is an eligible issue that the list, as it
      stands then, does not exclude. */
  predicate ConflictRun(eligible: set<int>, skips: seq<int>, picks: seq<int>) {
    picks == [] ||
    (var before := picks[..|picks| - 1];
     && ConflictRun(eligible, skips, before)
     && picks[|picks| - 1] in eligible && picks[|picks| - 1] !in AfterSkips(skips, before))
  }

  lemma LastOfAppend(s: seq<int>, n: nat, x: int)
    requires n >= 1
    ensures LastOf(LastOf(s, n) + [x], n) == LastOf(s + [x], n)
  {
  }

  /** During a run of conflicts the list is the end of the initial list and the picks. */
  lemma {:induction false} ListIsTail(eligible: set<int>, skips: seq<int>, picks: seq<int>)
    requires ConflictRun(eligible, skips, picks)
    ensures LastOf(AfterSkips(skips, picks), MAX_SKIPS) == LastOf(skips + picks, MAX_SKIPS)
  {
    if picks == [] {
      assert skips + picks == skips;
    } else {
      var before, last := picks[..|picks| - 1], picks[|picks| - 1];
      ListIsTail(eligible, skips, before);
      var list := AfterSkips(skips, before);
      WithoutAbsent(list, last);
      LastOfAppend(list, MAX_SKIPS, last);
      LastOfAppend(skips + before, MAX_SKIPS, last);
      LastOfAppend(list + [last], MAX_SKIPS, last);
      assert skips + picks == skips + before + [last];
      assert LastOf(LastOf(list + [last], MAX_SKIPS), MAX_SKIPS) == LastOf(list + [last], MAX_SKIPS);
    }
  }

  predicate DistinctInts(s: seq<int>) {
    forall i, j :: 0 <= i < j < |s| ==> s[i] != s[j]
  }

  lemma TailContains(s: seq<int>, t: seq<int>, x: int)
    requires |t| <= MAX_SKIPS && x in t
    ensures x in LastOf(s + t, MAX_SKIPS)
  {
    var i :| 0 <= i < |t| && t[i] == x;
    var all := s + t;
    assert all[|s| + i] == x;
    if |all| > MAX_SKIPS {
      assert all[|all| - MAX_SKIPS..][|s| + i - (|all| - MAX_SKIPS)] == x;
    }
  }

  lemma InLastOf(s: seq<int>, x: int)
    requires x in LastOf(s, MAX_SKIPS)
    ensures x in s
  {
  }

  /** The first 101 picks of a call are distinct, whatever the list held before. */
  lemma {:induction false} FirstPicksDistinct(eligible: set<int>, skips: seq<int>, picks: seq<int>)
    requires ConflictRun(eligible, skips, picks) && |picks| <= MAX_SKIPS + 1
    ensures DistinctInts(picks) && SetOf(picks) <= eligible
  {
    if picks != [] {
      var before, last := picks[..|picks| - 1], picks[|picks| - 1];
      FirstPicksDistinct(eligible, skips, before);
      ListIsTail(eligible, skips, before);
      if last in before {
        TailContains(skips, before, last);
        InLastOf(AfterSkips(skips, before), last);
      }
      assert picks == before + [last];
    }
  }

  lemma {:induction false} DistinctSize(s: seq<int>)
    requires DistinctInts(s)
    ensures |SetOf(s)| == |s|
  {
    if s != [] {
      var front, last := s[..|s| - 1], s[|s| - 1];
      DistinctSize(front);
      assert s == front + [last];
      assert SetOf(s) == SetOf(front) + {last};
      assert last !in front;
    }
  }

  lemma {:induction false} PrefixRuns(eligible: set<int>, skips: seq<int>, picks: seq<int>, n: nat)
    requires ConflictRun(eligible, skips, picks) && n <= |picks|
    ensures ConflictRun(eligible, skips, picks[..n])
    decreases |picks|
  {
    if n < |picks| {
      PrefixRuns(eligible, skips, picks[..|picks| - 1], n);
      assert picks[..|picks| - 1][..n] == picks[..n];
    } else {
      assert picks[..n] == picks;
    }
  }

  lemma RunBound(eligible: set<int>, skips: seq<int>, picks: seq<int>)
    requires |eligible| <= MAX_SKIPS && ConflictRun(eligible, skips, picks)
    ensures |picks| <= |eligible|
  {
    var n := if |picks| <= MAX_SKIPS + 1 then |picks| else MAX_SKIPS + 1;
    PrefixRuns(eligible, skips, picks, n);
    FirstPicksDistinct(eligible, skips, picks[..n]);
    DistinctSize(picks[..n]);
    SubsetSize(SetOf(picks[..n]), eligible);
    assert picks[..|picks|] == picks;
  }

  lemma {:induction false} ListStaysShort(skips: seq<int>, picks: seq<int>)
    requires |skips| <= MAX_SKIPS
    ensures |AfterSkips(skips, picks)| <= MAX_SKIPS
  {
  }

  lemma {:induction false} SetOfSize(s: seq<int>)
    ensures |SetOf(s)| <= |s|
  {
    if s != [] {
      SetOfSize(s[..|s| - 1]);
      assert s == s[..|s| - 1] + [s[|s| - 1]];
      assert SetOf(s) == SetOf(s[..|s| - 1]) + {s[|s| - 1]};
    }
  }

  lemma SomeOutside(a: set<int>, b: set<int>) returns (x: int)
    requires |a| > |b|
    ensures x in a && x !in b
  {
    if forall y :: y in a ==> y in b { SubsetSize(a, b); }
    x :| x in a && x !in b;
  }

  /** With more than 100 eligible issues conflicts can go on for any number of turns. */
  lemma {:induction false} LongRun(eligible: set<int>, skips: seq<int>, n: nat) returns (picks: seq<int>)
    requires |eligible| > MAX_SKIPS && |skips| <= MAX_SKIPS
    ensures |picks| == n && ConflictRun(eligible, skips, picks)
  {
    if n == 0 {
      picks := [];
    } else {
      var before := LongRun(eligible, skips, n - 1);
      var list := AfterSkips(skips, before);
      ListStaysShort(skips, before);
      SetOfSize(list);
      var pick := SomeOutside(eligible, SetOf(list));
      picks := before + [pick];
      assert picks[..n - 1] == before;
    }
  }

  ghost predicate BoundsRuns(eligible: set<int>, skips: seq<int>, bound: nat) {
    forall picks :: ConflictRun(eligible, skips, picks) ==> |picks| <= bound
  }

  /** However conflicts fall, a call makes boundedly many claims exactly when at most 100
      issues are eligible, whatever the exclusion list held before. */
  lemma ConflictsBoundedExactly(eligible: set<int>, skips: seq<int>)
    requires |skips| <= MAX_SKIPS
    ensures (exists bound :: BoundsRuns(eligible, skips, bound)) <==> |eligible| <= MAX_SKIPS
  {
    if |eligible| <= MAX_SKIPS {
      forall picks | ConflictRun(eligible, skips, picks) ensures |picks| <= |eligible| {
        RunBound(eligible, skips, picks);
      }
      assert BoundsRuns(eligible, skips, |eligible|);
    } else if bound: nat :| BoundsRuns(eligible, skips, bound) {
      var picks := LongRun(eligible, skips, bound + 1);
    }
  }

  /** When the eligible issues and the initial list number at most 100 together, nothing is
      ever dropped: no skipped issue is picked again, and each conflict strictly shrinks
      what is left to pick. */
  lemma {:induction false} NothingRetried(eligible: set<int>, skips: seq<int>, picks: seq<int>)
    requires ConflictRun(eligible, skips, picks)
    requires DistinctInts(skips) && |eligible + SetOf(skips)| <= MAX_SKIPS
    ensures AfterSkips(skips, picks) == skips + picks && DistinctInts(skips + picks)
    ensures |eligible - SetOf(AfterSkips(skips, picks))| == |eligible - SetOf(skips)| - |picks|
  {
    if picks == [] {
      assert skips + picks == skips;
    } else {
      var before, last := picks[..|picks| - 1], picks[|picks| - 1];
      NothingRetried(eligible, skips, before);
      assert skips + picks == (skips + before) + [last];
      RunWithin(eligible, skips, picks);
      OneMoreSkip(eligible, skips + before, last, eligible + SetOf(skips));
    }
  }

  lemma OneMoreSkip(eligible: set<int>, list: seq<int>, last: int, all: set<int>)
    requires DistinctInts(list) && last in eligible && last !in list
    requires SetOf(list + [last]) <= all && |all| <= MAX_SKIPS
    ensures WithSkip(list, last) == list + [last] && DistinctInts(list + [last])
    ensures |eligible - SetOf(list + [last])| == |eligible - SetOf(list)| - 1
  {
    WithoutAbsent(list, last);
    DistinctSize(list + [last]);
    SubsetSize(SetOf(list + [last]), all);
    assert SetOf(list + [last]) == SetOf(list) + {last};
    OneFewer(eligible, SetOf(list), last);
  }

  lemma OneFewer(a: set<int>, b: set<int>, x: int)
    requires x in a && x !in b
    ensures |a - (b + {x})| == |a - b| - 1
  {
    assert a - (b + {x}) == (a - b) - {x};
  }

  lemma {:induction false} RunWithin(eligible: set<int>, skips: seq<int>, picks: seq<int>)
    requires ConflictRun(eligible, skips, picks)
    ensures SetOf(skips + picks) <= eligible + SetOf(skips)
  {
    if picks != [] {
      RunWithin(eligible, skips, picks[..|picks| - 1]);
      assert skips + picks == (skips + picks[..|picks| - 1]) + [picks[|picks| - 1]];
    }
  }

  // ---------- claiming ----------

  datatype Offer = OfferUnavailable | OfferExhausted | OfferCandidate(issue: Option<int>)

  datatype Claim = Claimed(lease: nat) | LeaseConflict | ClaimFails

  /** What the rest of the system answers: the shortlist of the k-th turn under exclusions,
      the k-th lease claim, and what happens to an issue afterwards. */
  datatype World = World(
    offer: (nat, set<int>) -> Offer,
    claim: (nat, int) -> Claim,
    revalidate: Option<int -> bool>,      // whether the issue is still eligible, if authority was supplied
    release: int -> bool,
    handoff: int -> Option<string>,       // workspace, artifacts and plan
    canonical: LoopState -> bool,
    reconcile: int -> Option<nat>)        // live ownership of a persisted lease

  /** The shortlist offers only issues that exist and are not excluded, as
      `IssueCandidates.ExcludedIsNeverChosen` shows of it. */
  ghost predicate Honest(w: World, eligible: set<int>) {
    forall k, excluded, n :: w.offer(k, excluded) == OfferCandidate(Some(n)) ==> n in eligible && n !in excluded
  }

  datatype Result =
    | Returned(state: LoopState)
    | PartialState
    | NotCanonical
    | ResumeRefused
    | DiscoveryUnavailable
    | InvalidIdentity
    | ClaimError
    | ReleaseFailed(issue: int)
    | HandoffFailed(issue: int, leaseReleased: bool, ownershipProven: bool)

  function Yielded(state: LoopState, issue: int): LoopState {
    state.Deactivated().(status := Running,
                         deferred := WithoutDeferral(state.deferred, issue) + [Deferral(issue, YieldedKind)])
  }

  function WithoutDeferral(deferred: seq<Deferral>, issue: int): seq<Deferral> {
    if deferred == [] then []
    else if deferred[0].issue == issue then WithoutDeferral(deferred[1..], issue)
    else [deferred[0]] + WithoutDeferral(deferred[1..], issue)
  }

  // ---------- what giving an issue back means ----------

  /** These positions, in ascending order, are exactly where other issues are deferred, not
      counting the first ones. */
  predicate OthersAt(at: seq<nat>, deferred: seq<Deferral>, issue: int, first: nat) {
    && (forall i :: 0 <= i < |at| ==> first <= at[i] < |deferred| && deferred[at[i]].issue != issue)
    && (forall i, j :: 0 <= i < j < |at| ==> at[i] < at[j])
    && (forall k :: first <= k < |deferred| && deferred[k].issue != issue ==> k in at)
  }

  /** The deferrals of all other issues, unchanged and in their order. */
  ghost predicate OthersOf(kept: seq<Deferral>, deferred: seq<Deferral>, issue: int) {
    exists at: seq<nat> ::
      |at| == |kept| && OthersAt(at, deferred, issue, 0) && forall i :: 0 <= i < |at| ==> kept[i] == deferred[at[i]]
  }

  /** The issue is deferred as yielded, last and once; nothing is active; all else is kept. */
  ghost predicate GivenBack(before: LoopState, issue: int, after: LoopState) {
    && after.deferred != []
    && after.deferred[|after.deferred| - 1] == Deferral(issue, YieldedKind)
    && OthersOf(after.deferred[..|after.deferred| - 1], before.deferred, issue)
    && !after.Persisted() && after.status == Running && issue in after.Excluded()
    && after.completed == before.completed && after.skips == before.skips && after.remaining == before.remaining
  }

  lemma {:induction false} WithoutIsOthers(deferred: seq<Deferral>, issue: int, first: nat) returns (at: seq<nat>)
    requires first <= |deferred|
    ensures OthersAt(at, deferred, issue, first) && |at| == |WithoutDeferral(deferred[first..], issue)|
    ensures forall i :: 0 <= i < |at| ==> WithoutDeferral(deferred[first..], issue)[i] == deferred[at[i]]
    decreases |deferred| - first
  {
    if first == |deferred| {
      at := [];
    } else {
      var rest := WithoutIsOthers(deferred, issue, first + 1);
      assert deferred[first..][1..] == deferred[first + 1..];
      if deferred[first].issue == issue {
        at := rest;
      } else {
        at := [first] + rest;
        forall k | first <= k < |deferred| && deferred[k].issue != issue ensures k in at {
          assert k == first || k in rest;
        }
      }
    }
  }

  lemma YieldGivesBack(state: LoopState, issue: int)
    ensures GivenBack(state, issue, Yielded(state, issue))
  {
    var y := Yielded(state, issue);
    var at := WithoutIsOthers(state.deferred, issue, 0);
    assert state.deferred[0..] == state.deferred;
    assert y.deferred[..|y.deferred| - 1] == WithoutDeferral(state.deferred, issue);
    assert y.deferred[|y.deferred| - 1] in y.deferred;
    assert issue in DeferredIssues(y.deferred);
  }

  /** The state after the conflicts of one call. */
  function Skipped(state: LoopState, conflicts: seq<int>): LoopState {
    state.(skips := AfterSkips(state.skips, conflicts))
  }

  // ---------- what the answers of the rest of the system decide ----------

  predicate StillEligible(w: World, issue: int) {
    w.revalidate.Some? ==> w.revalidate.value(issue)
  }

  /** What becomes of a freshly claimed issue. */
  function HandedOver(w: World, state: LoopState, issue: int, lease: nat): Result {
    if !StillEligible(w, issue) then
      if w.release(issue) then Returned(Yielded(state, issue)) else ReleaseFailed(issue)
    else if w.handoff(issue).None? then HandoffFailed(issue, w.release(issue), false)
    else Returned(state.(activeIssue := Some(issue), activeWorkspace := w.handoff(issue), activeLease := Some(lease)))
  }

  /** Live authority confirms the lease that the fields name. */
  predicate Confirmed(w: World, state: LoopState)
    requires state.Complete()
  {
    w.canonical(state) && w.reconcile(state.activeIssue.value).Some?
  }

  /** What becomes of a persisted issue. */
  function Resumed(w: World, state: LoopState): Result
    requires state.Complete()
  {
    var issue := state.activeIssue.value;
    if !w.canonical(state) then NotCanonical
    else if w.reconcile(issue).None? then ResumeRefused
    else if !StillEligible(w, issue) then
      if w.release(issue) then Returned(Yielded(state, issue)) else ReleaseFailed(issue)
    else if w.handoff(issue) != state.activeWorkspace then HandoffFailed(issue, false, true)
    else Returned(state.(activeLease := w.reconcile(issue)))
  }

  /** What a granted claim may come to: activation, in the workspace prepared and with the lease
      granted, if the issue is still eligible and can be handed over; giving it back if it is
      no longer eligible and can be released; and an error otherwise. */
  ghost predicate Settles(w: World, state: LoopState, issue: int, lease: nat, r: Result) {
    var eligible := w.revalidate.None? || w.revalidate.value(issue);
    && (r.Returned? || r.ReleaseFailed? || r.HandoffFailed?)
    && (r.ReleaseFailed? <==> !eligible && !w.release(issue))
    && (r.HandoffFailed? <==> eligible && w.handoff(issue).None?)
    && (r.HandoffFailed? ==> (r.leaseReleased <==> w.release(issue)) && !r.ownershipProven)
    && (r.ReleaseFailed? || r.HandoffFailed? ==> r.issue == issue)
    && (r.Returned? && eligible ==>
          r.state == state.(activeIssue := Some(issue), activeWorkspace := w.handoff(issue),
                            activeLease := Some(lease)))
    && (r.Returned? && !eligible ==> GivenBack(state, issue, r.state))
  }

  lemma HandedOverSettles(w: World, state: LoopState, issue: int, lease: nat)
    ensures Settles(w, state, issue, lease, HandedOver(w, state, issue, lease))
  {
    YieldGivesBack(state, issue);
  }

  /** What resuming may come to. */
  ghost predicate Resumes(w: World, state: LoopState, r: Result)
    requires state.Complete()
  {
    var issue := state.activeIssue.value;
    var confirmed := w.canonical(state) && w.reconcile(issue).Some?;
    var eligible := w.revalidate.None? || w.revalidate.value(issue);
    && (r.NotCanonical? <==> !w.canonical(state))
    && (r.ResumeRefused? <==> w.canonical(state) && w.reconcile(issue).None?)
    && (r.ReleaseFailed? <==> confirmed && !eligible && !w.release(issue))
    && (r.HandoffFailed? <==> confirmed && eligible && w.handoff(issue) != state.activeWorkspace)
    && (r.HandoffFailed? ==> !r.leaseReleased && r.ownershipProven)
    && (r.ReleaseFailed? || r.HandoffFailed? ==> r.issue == issue)
    && (r.Returned? || r.NotCanonical? || r.ResumeRefused? || r.ReleaseFailed? || r.HandoffFailed?)
    && (r.Returned? && eligible ==> r.state == state.(activeLease := w.reconcile(issue)))
    && (r.Returned? && !eligible ==> GivenBack(state, issue, r.state))
  }

  lemma ResumedResumes(w: World, state: LoopState)
    requires state.Complete()
    ensures Resumes(w, state, Resumed(w, state))
  {
    YieldGivesBack(state, state.activeIssue.value);
  }

  /** The i-th conflict: an issue that the shortlist offered then, and whose lease is another's. */
  ghost predicate Refused(w: World, state: LoopState, conflicts: seq<int>, i: nat)
    requires i < |conflicts|
  {
    && w.offer(i, Skipped(state, conflicts[..i]).Excluded()) == OfferCandidate(Some(conflicts[i]))
    && conflicts[i] > 0 && w.claim(i, conflicts[i]) == LeaseConflict
  }

  /** A turn that ends the call: what the shortlist and the lease authority answer decides how. */
  predicate LastTurn(w: World, s: LoopState, turn: nat, claimed: Option<int>, r: Result) {
    match w.offer(turn, s.Excluded())
    case OfferUnavailable => claimed.None? && r == DiscoveryUnavailable
    case OfferExhausted => claimed.None? && r == Returned(s.Deactivated().(status := Idle))
    case OfferCandidate(issue) =>
      if issue.None? || issue.value < 1 then claimed.None? && r == InvalidIdentity
      else
        match w.claim(turn, issue.value)
        case ClaimFails => claimed.None? && r == ClaimError
        case LeaseConflict => false
        case Claimed(lease) => claimed == issue && r == HandedOver(w, s, issue.value, lease)
  }

  /** What the last turn may come to, for each result in turn. */
  ghost predicate Concludes(w: World, s: LoopState, turn: nat, claimed: Option<int>, r: Result) {
    var offer := w.offer(turn, s.Excluded());
    if claimed.Some? then
      && offer == OfferCandidate(claimed) && claimed.value > 0 && w.claim(turn, claimed.value).Claimed?
      && Settles(w, s, claimed.value, w.claim(turn, claimed.value).lease, r)
    else
      || (r.DiscoveryUnavailable? && offer.OfferUnavailable?)
      || (r.InvalidIdentity? && offer.OfferCandidate? && (offer.issue.None? || offer.issue.value <= 0))
      || (r.ClaimError? && offer.OfferCandidate? && offer.issue.Some? && w.claim(turn, offer.issue.value).ClaimFails?)
      || (&& r.Returned? && offer.OfferExhausted? && r.state.status == Idle && !r.state.Persisted()
          && r.state.deferred == s.deferred && r.state.completed == s.completed && r.state.skips == s.skips
          && r.state.remaining == s.remaining)
  }

  lemma LastTurnConcludes(w: World, s: LoopState, turn: nat, claimed: Option<int>, r: Result)
    requires LastTurn(w, s, turn, claimed, r)
    ensures Concludes(w, s, turn, claimed, r)
  {
    if claimed.Some? { HandedOverSettles(w, s, claimed.value, w.claim(turn, claimed.value).lease); }
  }

  /** All turns of a call for new work. */
  ghost predicate Turns(w: World, state: LoopState, conflicts: seq<int>, claimed: Option<int>, r: Result) {
    && (forall i :: 0 <= i < |conflicts| ==> Refused(w, state, conflicts, i))
    && LastTurn(w, Skipped(state, conflicts), |conflicts|, claimed, r)
  }

  /** What a call answers to what it is answered. */
  ghost predicate Answers(w: World, state: LoopState, conflicts: seq<int>, claimed: Option<int>, r: Result) {
    if state.Complete() then
      && conflicts == [] && r == Resumed(w, state)
      && claimed == if Confirmed(w, state) then state.activeIssue else None
    else if state.Persisted() then conflicts == [] && claimed.None? && r == PartialState
    else Turns(w, state, conflicts, claimed, r)
  }

  lemma {:induction false} SameConflicts(w: World, state: LoopState, a: seq<int>, b: seq<int>, n: nat)
    requires n <= |a| && n <= |b|
    requires forall i :: 0 <= i < |a| ==> Refused(w, state, a, i)
    requires forall i :: 0 <= i < |b| ==> Refused(w, state, b, i)
    ensures a[..n] == b[..n]
  {
    if n > 0 {
      SameConflicts(w, state, a, b, n - 1);
      assert Refused(w, state, a, n - 1) && Refused(w, state, b, n - 1);
      assert a[..n] == a[..n - 1] + [a[n - 1]] && b[..n] == b[..n - 1] + [b[n - 1]];
    }
  }

  /** Where one run of conflicts goes on, another does not end. */
  lemma NotLast(w: World, state: LoopState, a: seq<int>, b: seq<int>, claimed: Option<int>, r: Result)
    requires |a| < |b| && forall i :: 0 <= i < |a| ==> Refused(w, state, a, i)
    requires forall i :: 0 <= i < |b| ==> Refused(w, state, b, i)
    ensures !LastTurn(w, Skipped(state, a), |a|, claimed, r)
  {
    SameConflicts(w, state, a, b, |a|);
    assert a == b[..|a|] && Refused(w, state, b, |a|);
  }

  /** The answers of the rest of the system leave a call no choice. */
  lemma AnswersDecide(w: World, state: LoopState, a: seq<int>, claimedA: Option<int>, ra: Result,
                      b: seq<int>, claimedB: Option<int>, rb: Result)
    requires Answers(w, state, a, claimedA, ra) && Answers(w, state, b, claimedB, rb)
    ensures a == b && claimedA == claimedB && ra == rb
  {
    if !state.Persisted() {
      if |a| < |b| { NotLast(w, state, a, b, claimedA, ra); }
      if |b| < |a| { NotLast(w, state, b, a, claimedB, rb); }
      SameConflicts(w, state, a, b, |a|);
      assert a == a[..|a|] && b == b[..|b|];
    }
  }

  // ---------- leases held before and after a call ----------

  /** What this run owns according to its own fields. */
  function OwnedBy(state: LoopState): set<int> {
    if state.activeIssue.Some? && state.activeLease.Some? then {state.activeIssue.value} else {}
  }

  function IssueOf(claimed: Option<int>): set<int> {
    if claimed.Some? then {claimed.value} else {}
  }

  /** The fields name the issue, its workspace and its lease, and nothing else changed. */
  predicate Activates(state: LoopState, s: LoopState, issue: int) {
    && s.activeIssue == Some(issue) && s.activeWorkspace.Some? && s.activeLease.Some?
    && s == state.(activeIssue := s.activeIssue, activeWorkspace := s.activeWorkspace, activeLease := s.activeLease)
  }

  /** How a call that was handed an inactive state may end, whatever leases the run held
      before. `claimed` is the issue whose lease the call took, if it took one. */
  predicate FreshOutcome(state: LoopState, conflicts: seq<int>, claimed: Option<int>, r: Result, before: set<int>,
                         held: set<int>) {
    var skipped := Skipped(state, conflicts);
    && (claimed.Some? ==> claimed.value !in skipped.Excluded() && claimed.value > 0)
    && match r
       case Returned(s) =>
         if claimed.None? then held == before && s == skipped.Deactivated().(status := Idle)
         else
           || (held == before - {claimed.value} && s == Yielded(skipped, claimed.value))
           || (held == before + {claimed.value} && Activates(skipped, s, claimed.value))
       case HandoffFailed(issue, released, proven) =>
         claimed == Some(issue) && !proven && held == if released then before - {issue} else before + {issue}
       case ReleaseFailed(issue) => claimed == Some(issue) && held == before + {issue}
       case DiscoveryUnavailable => claimed.None? && held == before
       case InvalidIdentity => claimed.None? && held == before
       case ClaimError => claimed.None? && held == before
       case _ => false
  }

  /** How a call that resumes a claimed issue may end, whatever became of its lease. Only live
      authority decides that the lease is held; a refusal changes nothing. */
  predicate ResumeOutcome(state: LoopState, claimed: Option<int>, r: Result, before: set<int>, held: set<int>) {
    state.activeIssue.Some? &&
    var issue := state.activeIssue.value;
    match r
    case Returned(s) =>
      && claimed == Some(issue)
      && (|| (held == before - {issue} && s == Yielded(state, issue))
          || (held == before + {issue} && Activates(state, s, issue)))
    case ReleaseFailed(i) => claimed == Some(i) && i == issue && held == before + {issue}
    case HandoffFailed(i, released, proven) =>
      claimed == Some(i) && i == issue && !released && proven && held == before + {issue}
    case NotCanonical => claimed.None? && held == before
    case ResumeRefused => claimed.None? && held == before
    case _ => false
  }

  /** How any call may end: a partial state is refused, a complete one resumed, an inactive one
      given new work. */
  predicate Outcome(state: LoopState, conflicts: seq<int>, claimed: Option<int>, r: Result, before: set<int>,
                    held: set<int>) {
    if state.Complete() then conflicts == [] && ResumeOutcome(state, claimed, r, before, held)
    else if state.Persisted() then conflicts == [] && claimed.None? && r == PartialState && held == before
    else FreshOutcome(state, conflicts, claimed, r, before, held)
  }

  /** What is stored after a call on the stored state. */
  function StoredAfter(state: LoopState, conflicts: seq<int>, r: Result): LoopState {
    if r.Returned? then r.state else if conflicts == [] then state else Skipped(state, conflicts)
  }

  /** The durable state of the run and the leases that authority records for it. Nothing ties
      the two together: a lease may be lost to another owner, or outlive the fields. */
  class Claimer {
    const world: World
    ghost const eligible: set<int>
    var stored: LoopState
    var held: set<int>

    constructor (world: World, ghost eligible: set<int>, stored: LoopState, held: set<int>)
      ensures this.world == world && this.eligible == eligible && this.stored == stored && this.held == held
    {
      this.world, this.eligible, this.stored, this.held := world, eligible, stored, held;
    }

    /** Releases the lease, then records that the issue was given back. */
    method YieldClaimedIssue(state: LoopState, issue: int) returns (r: Result)
      modifies this
      ensures world.release(issue) ==>
                r == Returned(Yielded(state, issue)) && held == old(held) - {issue} && stored == r.state
      ensures r.Returned? ==> GivenBack(state, issue, r.state)
      ensures !world.release(issue) ==> r == ReleaseFailed(issue) && unchanged(this)
    {
      if !world.release(issue) { return ReleaseFailed(issue); }
      held := held - {issue};
      YieldGivesBack(state, issue);
      stored := Yielded(state, issue);
      r := Returned(stored);
    }

    /** Asks live authority for the persisted lease: it is this run's afterwards, kept or
        recovered, or resuming is refused because it is missing or another owner's. */
    method Reconcile(issue: int) returns (lease: Option<nat>)
      modifies this`held
      ensures lease == world.reconcile(issue)
      ensures held == if lease.Some? then old(held) + {issue} else old(held)
    {
      lease := world.reconcile(issue);
      if lease.Some? { held := held + {issue}; }
    }

    /** Resumes the issue that the persisted fields name. */
    method Resume(state: LoopState) returns (r: Result, claimed: Option<int>)
      requires state.Complete()
      modifies this
      ensures ResumeOutcome(state, claimed, r, old(held), held) && Answers(world, state, [], claimed, r)
      ensures Resumes(world, state, r)
      ensures claimed == if world.canonical(state) && world.reconcile(state.activeIssue.value).Some?
                         then state.activeIssue else None
      ensures stored == if r.Returned? then r.state else old(stored)
    {
      var issue, workspace := state.activeIssue.value, state.activeWorkspace.value;
      ResumedResumes(world, state);
      if !world.canonical(state) { return NotCanonical, None; }
      var lease := Reconcile(issue);
      if lease.None? { return ResumeRefused, None; }
      claimed := Some(issue);
      if world.revalidate.Some? && !world.revalidate.value(issue) {
        r := YieldClaimedIssue(state, issue);
        return;
      }
      if world.handoff(issue) != Some(workspace) { return HandoffFailed(issue, false, true), claimed; }
      stored := state.(activeLease := lease);
      r := Returned(stored);
    }

    /** Revalidates a freshly claimed issue and hands it to its workspace. */
    method HandOver(state: LoopState, issue: int, lease: nat, ghost before: set<int>) returns (r: Result)
      requires held == before + {issue} && !state.Persisted() && issue !in state.Excluded() && issue > 0
      modifies this
      ensures FreshOutcome(state, [], Some(issue), r, before, held)
      ensures r == HandedOver(world, state, issue, lease) && Settles(world, state, issue, lease, r)
      ensures stored == if r.Returned? then r.state else old(stored)
    {
      HandedOverSettles(world, state, issue, lease);
      if world.revalidate.Some? && !world.revalidate.value(issue) {
        r := YieldClaimedIssue(state, issue);
        return;
      }
      var workspace := world.handoff(issue);
      if workspace.None? {
        if world.release(issue) { held := held - {issue}; }
        return HandoffFailed(issue, issue !in held, false);
      }
      stored := state.(activeIssue := Some(issue), activeWorkspace := workspace, activeLease := Some(lease));
      r := Returned(stored);
    }

    /** The eligible issues that this run has neither completed nor deferred. */
    ghost function Available(state: LoopState): set<int> {
      eligible - state.completed - DeferredIssues(state.deferred)
    }

    /** Claims the next issue, from any state and whatever leases are held. At most 100 available
        issues keep the retry loop finite; without that bound it may never end. */
    method ClaimLoopIssue(state: LoopState) returns (r: Result, conflicts: seq<int>, claimed: Option<int>)
      requires |Available(state)| <= MAX_SKIPS && Honest(world, eligible)
      modifies this
      ensures Outcome(state, conflicts, claimed, r, old(held), held)
      ensures Answers(world, state, conflicts, claimed, r)
      ensures r == PartialState
              <==> && (state.activeIssue.Some? || state.activeWorkspace.Some? || state.activeLease.Some?)
                   && (state.activeIssue.None? || state.activeIssue.value < 1 || state.activeWorkspace.None?
                       || state.activeWorkspace.value == "" || state.activeLease.None?)
      ensures state.Complete() ==> Resumes(world, state, r)
      ensures !state.Persisted() ==> Concludes(world, Skipped(state, conflicts), |conflicts|, claimed, r)
      ensures claimed.Some? && r.Returned? && !r.state.Persisted() ==>
                GivenBack(Skipped(state, conflicts), claimed.value, r.state)
      ensures claimed.Some? && !state.Complete() ==> claimed.value in Available(state)
      ensures ConflictRun(Available(state), state.skips, conflicts)
      ensures stored
              == if r.Returned? then r.state else if conflicts == [] then old(stored) else Skipped(state, conflicts)
    {
      conflicts, claimed := [], None;
      if state.Persisted() && !state.Complete() { return PartialState, [], None; }
      if state.Complete() {
        r, claimed := Resume(state);
        return;
      }
      r, conflicts, claimed := ClaimNew(state);
      LastTurnConcludes(world, Skipped(state, conflicts), |conflicts|, claimed, r);
    }

    /** The retry loop: a conflict is recorded as a skip and the next candidate is tried. */
    method ClaimNew(state: LoopState) returns (r: Result, conflicts: seq<int>, claimed: Option<int>)
      requires |Available(state)| <= MAX_SKIPS && Honest(world, eligible) && !state.Persisted()
      modifies this
      ensures FreshOutcome(state, conflicts, claimed, r, old(held), held)
      ensures Turns(world, state, conflicts, claimed, r)
      ensures claimed.Some? ==> claimed.value in Available(state) && world.claim(|conflicts|, claimed.value).Claimed?
      ensures ConflictRun(Available(state), state.skips, conflicts)
      ensures stored
              == if r.Returned? then r.state else if conflicts == [] then old(stored) else Skipped(state, conflicts)
    {
      conflicts, claimed := [], None;
      var current, turn := state, 0;
      ghost var available := Available(state);
      while true
        invariant current == Skipped(state, conflicts) && held == old(held) && turn == |conflicts|
        invariant ConflictRun(available, state.skips, conflicts)
        invariant forall i :: 0 <= i < |conflicts| ==> Refused(world, state, conflicts, i)
        invariant stored == if conflicts == [] then old(stored) else current
        decreases |available| - |conflicts|
      {
        RunBound(available, state.skips, conflicts);
        var offer := world.offer(turn, current.Excluded());
        if offer.OfferUnavailable? { return DiscoveryUnavailable, conflicts, None; }
        if offer.OfferExhausted? {
          stored := current.Deactivated().(status := Idle);
          return Returned(stored), conflicts, None;
        }
        if offer.issue.None? || offer.issue.value < 1 { return InvalidIdentity, conflicts, None; }
        var issue := offer.issue.value;
        match world.claim(turn, issue) {
          case ClaimFails => return ClaimError, conflicts, None;
          case LeaseConflict =>
            OneMorePick(available, state.skips, conflicts, issue);
            RunBound(available, state.skips, conflicts + [issue]);
            OneMoreRefused(world, state, conflicts, issue);
            current := current.(skips := WithSkip(current.skips, issue));
            conflicts := conflicts + [issue];
            stored := current;
          case Claimed(lease) =>
            held := held + {issue};
            r := HandOver(current, issue, lease, old(held));
            FromCurrent(state, conflicts, issue, r, old(held), held);
            return r, conflicts, Some(issue);
        }
        turn := turn + 1;
      }
    }
  }

  lemma OneMorePick(eligible: set<int>, skips: seq<int>, conflicts: seq<int>, issue: int)
    requires ConflictRun(eligible, skips, conflicts) && issue in eligible && issue !in AfterSkips(skips, conflicts)
    ensures ConflictRun(eligible, skips, conflicts + [issue])
    ensures AfterSkips(skips, conflicts + [issue]) == WithSkip(AfterSkips(skips, conflicts), issue)
  {
    assert (conflicts + [issue])[..|conflicts|] == conflicts;
  }

  lemma OneMoreRefused(w: World, state: LoopState, conflicts: seq<int>, issue: int)
    requires forall i :: 0 <= i < |conflicts| ==> Refused(w, state, conflicts, i)
    requires w.offer(|conflicts|, Skipped(state, conflicts).Excluded()) == OfferCandidate(Some(issue))
    requires issue > 0 && w.claim(|conflicts|, issue) == LeaseConflict
    ensures forall i :: 0 <= i <= |conflicts| ==> Refused(w, state, conflicts + [issue], i)
  {
    forall i | 0 <= i <= |conflicts| ensures Refused(w, state, conflicts + [issue], i) {
      assert (conflicts + [issue])[..i] == conflicts[..i];
      if i < |conflicts| {
        assert Refused(w, state, conflicts, i);
      } else {
        assert conflicts[..i] == conflicts;
      }
    }
  }

  lemma FromCurrent(state: LoopState, conflicts: seq<int>, issue: int, r: Result, before: set<int>, held: set<int>)
    requires FreshOutcome(Skipped(state, conflicts), [], Some(issue), r, before, held)
    ensures FreshOutcome(state, conflicts, Some(issue), r, before, held)
  {
    assert Skipped(Skipped(state, conflicts), []) == Skipped(state, conflicts);
  }

  // ---------- accounting for leases ----------

  /** The leases that authority records for the run and that its stored fields do not name. */
  function Orphans(stored: LoopState, held: set<int>): set<int> {
    held - OwnedBy(stored)
  }

  /** The errors of a fresh claim that report its lease left behind. */
  predicate LeavesLease(state: LoopState, r: Result) {
    !state.Complete() && (r.ReleaseFailed? || (r.HandoffFailed? && !r.leaseReleased))
  }

  /** A claim of the issue cannot be completed, and its lease cannot be released either. */
  predicate Stuck(w: World, issue: int) {
    !w.release(issue) && (!StillEligible(w, issue) || w.handoff(issue).None?)
  }

  /** The issue whose lease a call leaves behind. */
  function LeftBehind(w: World, state: LoopState, claimed: Option<int>): set<int> {
    if !state.Persisted() && claimed.Some? && Stuck(w, claimed.value) then {claimed.value} else {}
  }

  /** A call reports its lease left behind if and only if it claimed an issue that is stuck;
      the error names that issue. */
  lemma LeavesLeaseExactly(w: World, state: LoopState, conflicts: seq<int>, claimed: Option<int>, r: Result)
    requires Answers(w, state, conflicts, claimed, r)
    ensures LeavesLease(state, r) <==> !state.Persisted() && claimed.Some? && Stuck(w, claimed.value)
    ensures LeavesLease(state, r) ==> Some(r.issue) == claimed
  {
  }

  /** An issue whose workspace cannot be prepared and whose lease cannot be released. */
  function StuckWorld(issue: int): World {
    World((k, excluded) => if issue in excluded then OfferExhausted else OfferCandidate(Some(issue)),
          (k, n) => Claimed(0), None, n => false, n => None, s => true, n => None)
  }

  /** Every run that may still claim an issue can lose its lease so. */
  lemma LeaseCanBeLeft(state: LoopState, issue: int)
    requires !state.Persisted() && issue > 0 && issue !in state.Excluded()
    ensures Honest(StuckWorld(issue), {issue})
    ensures forall conflicts, claimed, r :: Answers(StuckWorld(issue), state, conflicts, claimed, r) <==>
              conflicts == [] && claimed == Some(issue) && r == HandoffFailed(issue, false, false)
  {
    var w, r := StuckWorld(issue), HandoffFailed(issue, false, false);
    assert Skipped(state, []) == state;
    assert Answers(w, state, [], Some(issue), r);
    forall conflicts, claimed, r' | Answers(w, state, conflicts, claimed, r')
      ensures conflicts == [] && claimed == Some(issue) && r' == r
    {
      AnswersDecide(w, state, [], Some(issue), r, conflicts, claimed, r');
    }
  }

  /** What a call does to orphaned leases, exactly. Resuming neither makes nor removes any,
      whatever it ends in. New work orphans the lease of a stuck issue, and otherwise takes over
      or gives back an orphan of the issue it claims. */
  lemma OrphansExactly(w: World, state: LoopState, conflicts: seq<int>, claimed: Option<int>, r: Result,
                       before: set<int>, held: set<int>)
    requires Outcome(state, conflicts, claimed, r, before, held) && Answers(w, state, conflicts, claimed, r)
    ensures Orphans(StoredAfter(state, conflicts, r), held)
            == if state.Persisted() then Orphans(state, before)
               else Orphans(state, before) - IssueOf(claimed) + LeftBehind(w, state, claimed)
  {
    LeavesLeaseExactly(w, state, conflicts, claimed, r);
    if state.Complete() {
      ResumeKeepsOrphans(state, claimed, r, before, held);
    } else if !state.Persisted() {
      FreshOrphans(state, conflicts, claimed, r, before, held);
    }
  }

  lemma ResumeKeepsOrphans(state: LoopState, claimed: Option<int>, r: Result, before: set<int>, held: set<int>)
    requires state.Complete() && ResumeOutcome(state, claimed, r, before, held)
    ensures Orphans(StoredAfter(state, [], r), held) == Orphans(state, before)
  {
  }

  lemma FreshOrphans(state: LoopState, conflicts: seq<int>, claimed: Option<int>, r: Result, before: set<int>,
                     held: set<int>)
    requires !state.Persisted() && FreshOutcome(state, conflicts, claimed, r, before, held)
    ensures LeavesLease(state, r) ==> claimed == Some(r.issue)
    ensures Orphans(StoredAfter(state, conflicts, r), held)
            == if LeavesLease(state, r) then before + {r.issue} else before - IssueOf(claimed)
  {
    assert OwnedBy(Skipped(state, conflicts)) == {};
  }

  /** On normal return the lease that the active fields name is held; and nothing else is held
      if and only if the run had no orphaned lease, other than one of the issue it claimed. */
  lemma HeldExactlyOnReturn(w: World, state: LoopState, conflicts: seq<int>, claimed: Option<int>, r: Result,
                            before: set<int>, held: set<int>)
    requires Outcome(state, conflicts, claimed, r, before, held) && Answers(w, state, conflicts, claimed, r)
    requires r.Returned?
    ensures OwnedBy(r.state) <= held
    ensures r.state.activeIssue.Some? <==> OwnedBy(r.state) != {}
    ensures held == OwnedBy(r.state) <==> Orphans(state, before) <= IssueOf(claimed)
  {
    OrphansExactly(w, state, conflicts, claimed, r, before, held);
    LeavesLeaseExactly(w, state, conflicts, claimed, r);
    assert !state.Persisted() ==> OwnedBy(state) == {};
    ReturnedOwns(state, conflicts, claimed, r, before, held);
    assert held == OwnedBy(r.state) + Orphans(r.state, held);
    assert held == OwnedBy(r.state) <==> Orphans(r.state, held) == {};
  }

  lemma ReturnedOwns(state: LoopState, conflicts: seq<int>, claimed: Option<int>, r: Result, before: set<int>,
                     held: set<int>)
    requires Outcome(state, conflicts, claimed, r, before, held) && r.Returned?
    ensures OwnedBy(r.state) <= held && (r.state.activeIssue.Some? <==> OwnedBy(r.state) != {})
    ensures state.Complete() ==> claimed == state.activeIssue && OwnedBy(state) == IssueOf(claimed)
  {
  }

  /** One call of a controller: what it was answered, the stored state it read, and the leases
      held around it. */
  datatype Call = Call(
    world: World, state: LoopState, conflicts: seq<int>, claimed: Option<int>, result: Result,
    before: set<int>, after: set<int>)

  function StoredLast(first: LoopState, calls: seq<Call>): LoopState {
    if calls == [] then first
    else var c := calls[|calls| - 1]; StoredAfter(c.state, c.conflicts, c.result)
  }

  function HeldLast(held: set<int>, calls: seq<Call>): set<int> {
    if calls == [] then held else calls[|calls| - 1].after
  }

  /** Calls in a row, each on the state that the one before stored. In between, leases may
      expire and be taken by others. */
  ghost predicate InARow(first: LoopState, held: set<int>, calls: seq<Call>) {
    calls == [] ||
    (var before, c := calls[..|calls| - 1], calls[|calls| - 1];
     && InARow(first, held, before)
     && c.state == StoredLast(first, before) && c.before <= HeldLast(held, before)
     && Outcome(c.state, c.conflicts, c.claimed, c.result, c.before, c.after)
     && Answers(c.world, c.state, c.conflicts, c.claimed, c.result))
  }

  /** The issues whose lease some call left behind. */
  function LeftIn(calls: seq<Call>): set<int> {
    if calls == [] then {}
    else
      var c := calls[|calls| - 1];
      LeftIn(calls[..|calls| - 1]) + LeftBehind(c.world, c.state, c.claimed)
  }

  /** The issues whose lease some error reported as left behind. */
  function ReportedLeft(calls: seq<Call>): set<int> {
    if calls == [] then {}
    else
      var c := calls[|calls| - 1];
      ReportedLeft(calls[..|calls| - 1]) + if LeavesLease(c.state, c.result) then {c.result.issue} else {}
  }

  /** Over any sequence of calls, from any state and any leases, a lease is orphaned only if it
      was from the start or its issue was claimed while stuck, and errors name exactly those. */
  lemma {:induction false} OrphansAreReported(first: LoopState, held: set<int>, calls: seq<Call>)
    requires InARow(first, held, calls)
    ensures Orphans(StoredLast(first, calls), HeldLast(held, calls)) <= Orphans(first, held) + LeftIn(calls)
    ensures ReportedLeft(calls) == LeftIn(calls)
  {
    if calls != [] {
      var before, c := calls[..|calls| - 1], calls[|calls| - 1];
      OrphansAreReported(first, held, before);
      LeavesLeaseExactly(c.world, c.state, c.conflicts, c.claimed, c.result);
      FewerOrphans(c.state, c.before, HeldLast(held, before));
      OrphanStep(c, Orphans(first, held) + LeftIn(before));
    }
  }

  /** The issue is deferred and not the one in work. */
  predicate Away(state: LoopState, issue: int) {
    issue in DeferredIssues(state.deferred) && state.activeIssue != Some(issue)
  }

  lemma {:induction false} WithoutKeepsOthers(deferred: seq<Deferral>, issue: int)
    ensures forall d :: d in deferred && d.issue != issue ==> d in WithoutDeferral(deferred, issue)
  {
    if deferred != [] { WithoutKeepsOthers(deferred[1..], issue); }
  }

  lemma AwayStays(c: Call, issue: int)
    requires Away(c.state, issue)
    requires Outcome(c.state, c.conflicts, c.claimed, c.result, c.before, c.after)
    requires Answers(c.world, c.state, c.conflicts, c.claimed, c.result)
    ensures c.claimed != Some(issue) && Away(StoredAfter(c.state, c.conflicts, c.result), issue)
  {
    assert issue in Skipped(c.state, c.conflicts).Excluded();
    if c.claimed.Some? { WithoutKeepsOthers(c.state.deferred, c.claimed.value); }
  }

  /** A call that gave an issue back after claiming it. */
  predicate GaveBack(c: Call, issue: int) {
    c.claimed == Some(issue) && c.result.Returned? && !c.result.state.Persisted()
  }

  lemma {:induction false} StoredIsAway(first: LoopState, held: set<int>, calls: seq<Call>, i: nat, issue: int)
    requires InARow(first, held, calls) && i < |calls| && GaveBack(calls[i], issue)
    ensures Away(StoredLast(first, calls), issue)
    ensures forall j :: i < j < |calls| ==> calls[j].claimed != Some(issue)
  {
    var n := |calls| - 1;
    if i < n {
      StoredIsAway(first, held, calls[..n], i, issue);
      AwayStays(calls[n], issue);
    } else {
      GivesBackAway(calls[n], issue);
    }
  }

  lemma GivesBackAway(c: Call, issue: int)
    requires GaveBack(c, issue) && Outcome(c.state, c.conflicts, c.claimed, c.result, c.before, c.after)
    requires Answers(c.world, c.state, c.conflicts, c.claimed, c.result)
    ensures Away(c.result.state, issue)
  {
    YieldGivesBack(Skipped(c.state, c.conflicts), issue);
    YieldGivesBack(c.state, issue);
  }

  /** Over any sequence of calls, an issue that one gave back is claimed by none after it. */
  lemma YieldedIsNotClaimedAgain(first: LoopState, held: set<int>, calls: seq<Call>, i: nat, issue: int)
    requires InARow(first, held, calls) && i < |calls| && GaveBack(calls[i], issue)
    ensures forall j :: i < j < |calls| ==> calls[j].claimed != Some(issue)
  {
    StoredIsAway(first, held, calls, i, issue);
  }

  lemma FewerOrphans(stored: LoopState, fewer: set<int>, held: set<int>)
    requires fewer <= held
    ensures Orphans(stored, fewer) <= Orphans(stored, held)
  {
  }

  lemma OrphanStep(c: Call, known: set<int>)
    requires Outcome(c.state, c.conflicts, c.claimed, c.result, c.before, c.after)
    requires Answers(c.world, c.state, c.conflicts, c.claimed, c.result) && Orphans(c.state, c.before) <= known
    ensures Orphans(StoredAfter(c.state, c.conflicts, c.result), c.after)
            <= known + LeftBehind(c.world, c.state, c.claimed)
  {
    OrphansExactly(c.world, c.state, c.conflicts, c.claimed, c.result, c.before, c.after);
  }

  /** So when no call claimed a stuck issue, a run that began without orphans holds at
      most what its stored fields name, and exactly that whenever a call has just returned. */
  lemma NothingHeldSilently(first: LoopState, held: set<int>, calls: seq<Call>)
    requires InARow(first, held, calls) && Orphans(first, held) == {} && LeftIn(calls) == {}
    ensures HeldLast(held, calls) <= OwnedBy(StoredLast(first, calls))
    ensures calls != [] && calls[|calls| - 1].result.Returned? ==>
              HeldLast(held, calls) == OwnedBy(StoredLast(first, calls))
  {
    OrphansAreReported(first, held, calls);
    var last := HeldLast(held, calls);
    assert last <= OwnedBy(StoredLast(first, calls)) + Orphans(StoredLast(first, calls), last);
    if calls != [] && calls[|calls| - 1].result.Returned? {
      var c := calls[|calls| - 1];
      ReturnedOwns(c.state, c.conflicts, c.claimed, c.result, c.before, c.after);
    }
  }

  // ---------- containment ----------

  /** Where the process dies relative to the two durable writes. */
  datatype Crash = NoCrash | AfterFirstWrite | AfterSecondWrite

  datatype Containment = Contained(state: LoopState) | Crashed | NotAttributed | CannotRelease

  predicate HasDeferral(deferred: seq<Deferral>, issue: int) {
    exists d :: d in deferred && d.issue == issue
  }

  /** The first durable write: the disposition, while the active fields still stand. */
  function Disposition(state: LoopState, issue: int): LoopState {
    if HasDeferral(state.deferred, issue) then state.(status := Running)
    else state.(
           status := Running,
           remaining := if state.remaining > 0 then state.remaining - 1 else 0,
           deferred := WithoutDeferral(state.deferred, issue) + [Deferral(issue, BlockedKind)])
  }

  /** The second durable write. */
  function Cleared(state: LoopState, issue: int): LoopState {
    Disposition(state, issue).Deactivated()
  }

  /** The durable run state under containment, with the lease the failing issue may hold. */
  class Container {
    var stored: LoopState
    var held: bool

    constructor (stored: LoopState, held: bool)
      ensures this.stored == stored && this.held == held
    {
      this.stored, this.held := stored, held;
    }

    /** Contains an issue-local failure. `lease` tells whether a lease to release is known,
        given or parsed from the state; `release` whether the authority confirms it. */
    method ContainIssueLocalFailure(state: LoopState, issue: Option<int>, leaseReleased: bool, lease: bool,
                                    release: bool, crash: Crash)
        returns (r: Containment)
      modifies this
      ensures issue.None? ==> r == NotAttributed && unchanged(this)
      ensures issue.Some? && !leaseReleased && lease && !release ==>
                r == CannotRelease && held == old(held) && stored == state.(status := Interrupted)
      ensures issue.Some? && !leaseReleased && !lease && state.activeLease.Some?
              ==> r == CannotRelease && unchanged(this)
      ensures r.Contained? || r.Crashed? ==> held == (if !leaseReleased && lease then false else old(held))
      ensures r.Contained? ==> issue.Some? && stored == (if Settled(state, issue.value) then old(stored) else r.state)
      ensures r.Contained? ==> r.state == if Settled(state, issue.value) then state else Cleared(state, issue.value)
      ensures r.Crashed? ==> issue.Some? && !Settled(state, issue.value) && crash != NoCrash
      ensures r.Crashed? ==>
                stored
                == if crash == AfterFirstWrite then Disposition(state, issue.value) else Cleared(state, issue.value)
      ensures issue.Some? && (leaseReleased || (lease && release) || (!lease && state.activeLease.None?)) ==>
                (r.Crashed? <==> crash != NoCrash && !Settled(state, issue.value)) && (r.Contained? <==> !r.Crashed?)
    {
      if issue.None? { return NotAttributed; }
      var released := leaseReleased;
      if !released && lease {
        if !release {
          stored := state.(status := Interrupted);
          return CannotRelease;
        }
        held, released := false, true;
      }
      if !released && state.activeLease.Some? { return CannotRelease; }
      if Settled(state, issue.value) { return Contained(state); }
      stored := Disposition(state, issue.value);
      if crash == AfterFirstWrite { return Crashed; }
      stored := stored.Deactivated();
      if crash == AfterSecondWrite { return Crashed; }
      r := Contained(stored);
    }
  }

  /** The failure was contained before and nothing is active any more. */
  predicate Settled(state: LoopState, issue: int) {
    HasDeferral(state.deferred, issue) && !state.Persisted()
  }

  /** What may happen to the durable state: a containment call that is resumed from it, with
      the lease already released, or a claim that activates an issue. */
  datatype Event = Contain(issue: int, crash: Crash) | Activate(issue: int, workspace: string, lease: nat)

  function Apply(state: LoopState, e: Event): LoopState {
    match e
    case Activate(issue, workspace, lease) =>
      state.(activeIssue := Some(issue), activeWorkspace := Some(workspace), activeLease := Some(lease))
    case Contain(issue, crash) =>
      if Settled(state, issue) then state
      else if crash == AfterFirstWrite then Disposition(state, issue)
      else Cleared(state, issue)
  }

  function ApplyAll(state: LoopState, events: seq<Event>): LoopState {
    if events == [] then state else Apply(ApplyAll(state, events[..|events| - 1]), events[|events| - 1])
  }

  function ContainedIn(events: seq<Event>): set<int> {
    set e | e in events && e.Contain? :: e.issue
  }

  predicate OneEach(deferred: seq<Deferral>) {
    forall i, j :: 0 <= i < j < |deferred| ==> deferred[i].issue != deferred[j].issue
  }

  lemma {:induction false} NothingWithout(deferred: seq<Deferral>, issue: int)
    requires !HasDeferral(deferred, issue)
    ensures WithoutDeferral(deferred, issue) == deferred
  {
    if deferred != [] {
      assert deferred == [deferred[0]] + deferred[1..];
      assert deferred[0] in deferred;
      assert forall d :: d in deferred[1..] ==> d in deferred;
      NothingWithout(deferred[1..], issue);
    }
  }

  lemma DispositionKeepsOneEach(state: LoopState, issue: int)
    requires OneEach(state.deferred)
    ensures OneEach(Disposition(state, issue).deferred)
    ensures DeferredIssues(Disposition(state, issue).deferred) == DeferredIssues(state.deferred) + {issue}
    ensures state.deferred <= Disposition(state, issue).deferred
  {
    if HasDeferral(state.deferred, issue) {
      assert issue in DeferredIssues(state.deferred);
    } else {
      NothingWithout(state.deferred, issue);
      var d := Deferral(issue, BlockedKind);
      assert Disposition(state, issue).deferred == state.deferred + [d];
      forall x
        ensures x in DeferredIssues(state.deferred + [d]) <==> x in DeferredIssues(state.deferred) || x == issue
      {
        assert d in state.deferred + [d];
      }
    }
  }

  function Floored(remaining: nat, used: nat): nat {
    if remaining > used then remaining - used else 0
  }

  /** One deferral per issue, those of before untouched, and one slot used per new issue. */
  ghost predicate SlotsUsed(first: LoopState, s: LoopState, contained: set<int>) {
    && OneEach(s.deferred) && first.deferred <= s.deferred
    && DeferredIssues(s.deferred) == DeferredIssues(first.deferred) + contained
    && s.remaining == Floored(first.remaining, |contained - DeferredIssues(first.deferred)|)
  }

  /** However often containment is called and wherever it crashes, each contained issue has
      exactly one deferral, a slot is used once for each issue that had none before, and no
      earlier deferral is touched. */
  lemma {:induction false} ContainmentUsesOneSlotEach(state: LoopState, events: seq<Event>)
    requires OneEach(state.deferred)
    ensures SlotsUsed(state, ApplyAll(state, events), ContainedIn(events))
  {
    if events == [] {
      NoSlotsUsed(state);
    } else {
      var before, e := events[..|events| - 1], events[|events| - 1];
      ContainmentUsesOneSlotEach(state, before);
      ContainedStep(before, e, events);
      EventStep(state, ApplyAll(state, before), ContainedIn(before), e);
    }
  }

  lemma NoSlotsUsed(state: LoopState)
    requires OneEach(state.deferred)
    ensures ContainedIn([]) == {} && SlotsUsed(state, state, {})
  {
    assert {} - DeferredIssues(state.deferred) == {};
  }

  lemma EventStep(first: LoopState, state: LoopState, contained: set<int>, e: Event)
    requires SlotsUsed(first, state, contained)
    ensures SlotsUsed(first, Apply(state, e), if e.Contain? then contained + {e.issue} else contained)
  {
    if e.Contain? { ContainStep(first, state, contained, e); }
  }

  lemma ContainedStep(before: seq<Event>, e: Event, all: seq<Event>)
    requires all != [] && before == all[..|all| - 1] && e == all[|all| - 1]
    ensures ContainedIn(all) == if e.Contain? then ContainedIn(before) + {e.issue} else ContainedIn(before)
  {
    assert all == before + [e];
    assert forall f :: f in all <==> f in before || f == e;
  }

  lemma ApplyContain(state: LoopState, e: Event)
    requires e.Contain? && OneEach(state.deferred)
    ensures OneEach(Apply(state, e).deferred) && state.deferred <= Apply(state, e).deferred
    ensures DeferredIssues(Apply(state, e).deferred) == DeferredIssues(state.deferred) + {e.issue}
    ensures Apply(state, e).remaining
            == if e.issue in DeferredIssues(state.deferred) then state.remaining else Floored(state.remaining, 1)
  {
    DispositionKeepsOneEach(state, e.issue);
    HasMeans(state.deferred, e.issue);
  }

  lemma SlotCount(known: set<int>, contained: set<int>, issue: int)
    ensures |(contained + {issue}) - known| == |contained - known| + if issue in known + contained then 0 else 1
  {
    if issue in known + contained {
      assert (contained + {issue}) - known == contained - known;
    } else {
      assert (contained + {issue}) - known == (contained - known) + {issue};
    }
  }

  lemma PrefixOf(a: seq<Deferral>, b: seq<Deferral>, c: seq<Deferral>)
    requires a <= b <= c
    ensures a <= c
  {
  }

  lemma ContainStep(first: LoopState, state: LoopState, contained: set<int>, e: Event)
    requires e.Contain? && SlotsUsed(first, state, contained)
    ensures SlotsUsed(first, Apply(state, e), contained + {e.issue})
  {
    ApplyContain(state, e);
    SlotCount(DeferredIssues(first.deferred), contained, e.issue);
    PrefixOf(first.deferred, state.deferred, Apply(state, e).deferred);
  }

  lemma HasMeans(deferred: seq<Deferral>, issue: int)
    ensures HasDeferral(deferred, issue) <==> issue in DeferredIssues(deferred)
  {
  }

  /** A call that runs to its end settles the issue: any further call changes nothing. */
  lemma ContainmentSettles(state: LoopState, issue: int, again: Crash)
    requires OneEach(state.deferred)
    ensures Settled(Apply(state, Contain(issue, NoCrash)), issue)
    ensures Apply(Apply(state, Contain(issue, NoCrash)), Contain(issue, again)) == Apply(state, Contain(issue, NoCrash))
    ensures Apply(Apply(state, Contain(issue, AfterFirstWrite)), Contain(issue, NoCrash))
            == Apply(state, Contain(issue, NoCrash))
  {
    DispositionKeepsOneEach(state, issue);
    HasMeans(Disposition(state, issue).deferred, issue);
    HasMeans(state.deferred, issue);
  }
}
