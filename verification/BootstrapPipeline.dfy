/** The bootstrap pipeline: which workers run, in what order, and how the run is judged. */
module BootstrapPipeline {
  import opened Text

  /** How many checks a complete verification runs. */
  const CHECK_COUNT: nat := 2

  datatype Role = Implementation | ImplementationRetry | Repair | ReviewRole

  datatype WorkerDisposition = WorkerCompleted | WorkerTimedOut | WorkerCancelled | WorkerFailed

  datatype Candidate = Candidate(delta: bool, behindOriginMain: bool)

  datatype Options = Options(verifyOnly: bool, allowRepair: bool, review: bool, retryBudget: nat)

  /** What the run does, in order. */
  datatype Action = Launch(role: Role) | RunChecks | ReadCandidate | FetchIssue

  /** The outcomes that the run meets; those that may change are indexed by how much was done. */
  datatype World = World(
    worker: Role -> WorkerDisposition,
    candidate: nat -> Candidate,
    checks: nat -> seq<bool>,
    issueClosed: nat -> bool,
    aborted: nat -> bool,
    retry: (WorkerDisposition, Candidate, bool, nat, bool) -> RetryDecision,   // any policy
    evidence: seq<bool> -> bool,       // whether failed checks left evidence to repair from
    reviewPassed: bool)

  datatype RepairOutcome = NotNeeded | Ineligible | Disabled | RepairCompleted | RepairFailed | RepairExhausted

  datatype ImplementationOutcome = Implemented | Failed | RetryExhausted | AlreadySatisfiedOutcome | UnprovenNoChange

  datatype Disposition = Pass | Blocked | RepairableFailure | AlreadySatisfied | NoChange

  datatype Report = Report(
    disposition: Disposition, implementation: ImplementationOutcome, finalizationReady: bool,
    repair: RepairOutcome, checks: seq<bool>, candidate: Candidate)

  predicate AllPass(checks: seq<bool>) {
    checks == [] || (checks[0] && AllPass(checks[1..]))
  }

  predicate MechanicalPass(checks: seq<bool>) {
    |checks| == CHECK_COUNT && AllPass(checks)
  }

  datatype RetryDecision = RetryDecision(eligible: bool, exhausted: bool)

  /** The policy in use: a completed implementation that changed nothing gets another attempt,
      within the budget. The pipeline itself depends on no particular policy. */
  function DecideRetry(worker: WorkerDisposition, candidate: Candidate, closed: bool, used: nat, budget: nat,
                       cancelled: bool): RetryDecision {
    if used >= budget then RetryDecision(false, true)
    else RetryDecision(worker == WorkerCompleted && !candidate.delta && !closed && !cancelled, false)
  }

  ghost predicate FollowsPolicy(w: World, budget: nat) {
    forall worker, candidate, closed, used, cancelled ::
      w.retry(worker, candidate, closed, used, cancelled)
      == DecideRetry(worker, candidate, closed, used, budget, cancelled)
  }

  lemma RetryFollowsPolicy(w: World, budget: nat, worker: WorkerDisposition, candidate: Candidate, closed: bool,
                           used: nat, cancelled: bool)
    requires FollowsPolicy(w, budget) && w.retry(worker, candidate, closed, used, cancelled).eligible
    ensures used < budget && worker == WorkerCompleted && !candidate.delta && !closed && !cancelled
  {
    assert DecideRetry(worker, candidate, closed, used, budget, cancelled)
          == w.retry(worker, candidate, closed, used, cancelled);
  }

  /** What is known about the implementation when the checks begin. */
  datatype Implementing = Implementing(latest: Option<WorkerDisposition>, retryExhausted: bool, closed: bool)

  // ---------- the judgement ----------

  /** Everything the outcome depends on. */
  datatype Facts = Facts(
    options: Options, resumed: bool, implementing: Implementing, cancelled: bool,
    checks: seq<bool>, candidate: Candidate, reviewPass: bool)
  {
    predicate ProtocolCompleted() {
      options.verifyOnly || resumed || implementing.latest == Some(WorkerCompleted)
    }

    predicate RecoveryAllowed() {
      !cancelled && (ProtocolCompleted() || (implementing.latest == Some(WorkerTimedOut) && candidate.delta))
    }
  }

  function ImplementationOf(f: Facts): ImplementationOutcome {
    if f.candidate.delta && MechanicalPass(f.checks) && f.RecoveryAllowed() then Implemented
    else if !f.ProtocolCompleted() then Failed
    else if f.implementing.retryExhausted then RetryExhausted
    else if !MechanicalPass(f.checks) then Failed
    else if f.implementing.closed then AlreadySatisfiedOutcome
    else UnprovenNoChange
  }

  function DispositionOf(f: Facts): Disposition {
    if f.cancelled || (!f.ProtocolCompleted() && !f.RecoveryAllowed()) then Blocked
    else if !MechanicalPass(f.checks) then RepairableFailure
    else if !f.candidate.delta then (if f.implementing.closed then AlreadySatisfied else NoChange)
    else if f.options.review && !f.reviewPass then Blocked
    else Pass
  }

  predicate FinalizationReady(f: Facts) {
    && ImplementationOf(f) == Implemented && MechanicalPass(f.checks)
    && !f.candidate.behindOriginMain && (f.options.review ==> f.reviewPass)
  }

  /** Finalization may begin exactly when the run passed on a candidate that is not behind
      origin main. */
  lemma ReadyExactly(f: Facts)
    ensures FinalizationReady(f) <==> DispositionOf(f) == Pass && !f.candidate.behindOriginMain
    ensures DispositionOf(f) == Pass ==> MechanicalPass(f.checks) && f.candidate.delta && !f.cancelled
    ensures DispositionOf(f) == Pass ==> ImplementationOf(f) == Implemented
  {
    assert f.ProtocolCompleted() && !f.cancelled ==> f.RecoveryAllowed();
  }

  /** Both checks ran and passed. */
  predicate Verified(checks: seq<bool>) {
    |checks| == 2 && checks[0] && checks[1]
  }

  /** The candidate's author finished, or there is none in this run. */
  predicate Finished(f: Facts) {
    f.options.verifyOnly || f.resumed || f.implementing.latest == Some(WorkerCompleted)
  }

  /** The author finished, or timed out and left a change, and the run was not cancelled. */
  predicate Usable(f: Facts) {
    !f.cancelled && (Finished(f) || (f.implementing.latest == Some(WorkerTimedOut) && f.candidate.delta))
  }

  /** What every disposition means. */
  lemma DispositionExactly(f: Facts)
    ensures DispositionOf(f) == Blocked
            <==> !Usable(f) || (Verified(f.checks) && f.candidate.delta && f.options.review && !f.reviewPass)
    ensures DispositionOf(f) == RepairableFailure <==> Usable(f) && !Verified(f.checks)
    ensures DispositionOf(f) == AlreadySatisfied
            <==> Usable(f) && Verified(f.checks) && !f.candidate.delta && f.implementing.closed
    ensures DispositionOf(f) == NoChange
            <==> Usable(f) && Verified(f.checks) && !f.candidate.delta && !f.implementing.closed
    ensures DispositionOf(f) == Pass
            <==> Usable(f) && Verified(f.checks) && f.candidate.delta && (f.options.review ==> f.reviewPass)
  {
    VerifiedMeans(f.checks);
  }

  /** What every outcome of the implementation means. */
  lemma ImplementationExactly(f: Facts)
    ensures ImplementationOf(f) == Implemented <==> Usable(f) && Verified(f.checks) && f.candidate.delta
    ensures ImplementationOf(f) == RetryExhausted
            <==> ImplementationOf(f) != Implemented && Finished(f) && f.implementing.retryExhausted
    ensures ImplementationOf(f) == Failed
            <==> && ImplementationOf(f) != Implemented
                 && (!Finished(f) || (!Verified(f.checks) && !f.implementing.retryExhausted))
    ensures ImplementationOf(f) == AlreadySatisfiedOutcome
            <==> && ImplementationOf(f) != Implemented && Finished(f) && Verified(f.checks)
                 && !f.implementing.retryExhausted && f.implementing.closed
  {
    VerifiedMeans(f.checks);
  }

  lemma VerifiedMeans(checks: seq<bool>)
    ensures MechanicalPass(checks) <==> Verified(checks)
  {
    if |checks| == 2 {
      assert checks[1..] == [checks[1]] && [checks[1]][1..] == [];
      assert AllPass(checks[1..]) <==> checks[1];
    }
  }

  // ---------- the order of things ----------

  function Rank(role: Role): nat {
    match role case Implementation => 0 case ImplementationRetry => 1 case Repair => 2 case ReviewRole => 3
  }

  function Roles(log: seq<Action>): seq<Role> {
    if log == [] then []
    else
      var front, last := Roles(log[..|log| - 1]), log[|log| - 1];
      if last.Launch? then front + [last.role] else front
  }

  /** Each role at most once, in pipeline order. */
  predicate InOrder(roles: seq<Role>) {
    forall i, j :: 0 <= i < j < |roles| ==> Rank(roles[i]) < Rank(roles[j])
  }

  /** Nothing but the review was launched from the given point on. */
  predicate OnlyReviewAfter(log: seq<Action>, from: nat) {
    forall k :: from <= k < |log| && log[k].Launch? ==> log[k].role == ReviewRole
  }

  lemma RolesAppend(log: seq<Action>, a: Action)
    ensures Roles(log + [a]) == if a.Launch? then Roles(log) + [a.role] else Roles(log)
  {
    assert (log + [a])[..|log|] == log;
  }

  lemma ReviewMayFollow(log: seq<Action>, from: nat)
    requires OnlyReviewAfter(log, from)
    ensures OnlyReviewAfter(log + [Launch(ReviewRole)], from)
  {
  }

  /** All roles launched so far rank below the limit. */
  predicate Below(roles: seq<Role>, limit: nat) {
    InOrder(roles) && forall i :: 0 <= i < |roles| ==> Rank(roles[i]) < limit
  }

  lemma BelowAppend(roles: seq<Role>, role: Role)
    requires Below(roles, Rank(role))
    ensures Below(roles + [role], Rank(role) + 1)
  {
    var all := roles + [role];
    forall i | 0 <= i < |all| ensures Rank(all[i]) < Rank(role) + 1 && (i < |roles| ==> all[i] == roles[i]) {}
    assert InOrder(all);
  }

  lemma {:induction false} BelowSize(roles: seq<Role>, limit: nat)
    requires Below(roles, limit)
    ensures |roles| <= limit
  {
    if roles != [] { RankAtLeast(roles, |roles| - 1); }
  }

  lemma {:induction false} RankAtLeast(roles: seq<Role>, i: nat)
    requires InOrder(roles) && i < |roles|
    ensures Rank(roles[i]) >= i
  {
    if i > 0 { RankAtLeast(roles, i - 1); }
  }

  // ---------- what the outcomes met decide ----------

  /** A candidate that is there from before is resumed. */
  predicate Resumes(w: World, options: Options) {
    !options.verifyOnly && w.candidate(0).delta
  }

  predicate Implements(w: World, options: Options) {
    !options.verifyOnly && !w.candidate(0).delta
  }

  /** The issue is fetched again for a completed first attempt that changed nothing. An
      implementation that begins at `at` is launched there, and the candidate read next. */
  predicate Refetches(w: World, at: nat) {
    !w.candidate(at + 1).delta && w.worker(Implementation) == WorkerCompleted
  }

  function ClosedAfter(w: World, at: nat, closedAtStart: bool): bool {
    if Refetches(w, at) then w.issueClosed(at + 2) else closedAtStart
  }

  function AttemptEnd(w: World, at: nat): nat {
    at + if Refetches(w, at) then 3 else 2
  }

  function DecisionOf(w: World, at: nat, closedAtStart: bool): RetryDecision {
    w.retry(w.worker(Implementation), w.candidate(at + 1), ClosedAfter(w, at, closedAtStart), 0,
            w.aborted(AttemptEnd(w, at)))
  }

  function ImplementEnd(w: World, at: nat, closedAtStart: bool): nat {
    AttemptEnd(w, at) + if DecisionOf(w, at, closedAtStart).eligible then 2 else 0
  }

  /** A second attempt that completes and changes nothing exhausts the budget. */
  function ImplementingOf(w: World, at: nat, closedAtStart: bool): Implementing {
    var decision, closed := DecisionOf(w, at, closedAtStart), ClosedAfter(w, at, closedAtStart);
    if !decision.eligible then Implementing(Some(w.worker(Implementation)), decision.exhausted, closed)
    else
      var second, end := w.worker(ImplementationRetry), ImplementEnd(w, at, closedAtStart);
      var after := w.candidate(end - 1);
      var again := w.retry(second, after, closed, 1, w.aborted(end));
      Implementing(Some(second), again.exhausted && second == WorkerCompleted && !after.delta, closed)
  }

  /** The implementation of a whole run. */
  function DoneOf(w: World, options: Options, closedAtStart: bool): Implementing {
    if Implements(w, options) then ImplementingOf(w, 1, closedAtStart) else Implementing(None, false, closedAtStart)
  }

  /** Where the first checks come. */
  function FirstChecks(w: World, options: Options, closedAtStart: bool): nat {
    if Implements(w, options) then ImplementEnd(w, 1, closedAtStart) else 1
  }

  predicate Cancelled(w: World, options: Options, closedAtStart: bool) {
    && Implements(w, options)
    && (|| w.aborted(FirstChecks(w, options, closedAtStart) + 1)
        || DoneOf(w, options, closedAtStart).latest == Some(WorkerCancelled))
  }

  /** Failed checks of a changed candidate are repaired if that is allowed, something can be
      learnt from them, and the candidate's author finished or timed out. */
  predicate Repairs(w: World, options: Options, closedAtStart: bool) {
    var at := FirstChecks(w, options, closedAtStart);
    var latest := DoneOf(w, options, closedAtStart).latest;
    && !AllPass(w.checks(at)) && options.allowRepair && w.candidate(at + 1).delta && w.evidence(w.checks(at))
    && (|| !Implements(w, options) || latest == Some(WorkerCompleted)
        || (latest == Some(WorkerTimedOut) && !Cancelled(w, options, closedAtStart)))
  }

  /** Where the checks come that are reported, and the candidate. */
  function LastChecks(w: World, options: Options, closedAtStart: bool): nat {
    FirstChecks(w, options, closedAtStart) + if Repairs(w, options, closedAtStart) then 3 else 0
  }

  function LastRead(w: World, options: Options, closedAtStart: bool): nat {
    FirstChecks(w, options, closedAtStart) + if Repairs(w, options, closedAtStart) then 4 else 2
  }

  function RepairOf(w: World, options: Options, closedAtStart: bool): RepairOutcome {
    if AllPass(w.checks(FirstChecks(w, options, closedAtStart))) then NotNeeded
    else if !options.allowRepair then Disabled
    else if !Repairs(w, options, closedAtStart) then Ineligible
    else if !AllPass(w.checks(LastChecks(w, options, closedAtStart))) then RepairExhausted
    else if w.worker(Repair) == WorkerCompleted then RepairCompleted
    else RepairFailed
  }

  /** Everything the outcome depends on, before a review. */
  function FactsBefore(w: World, options: Options, closedAtStart: bool): Facts {
    Facts(options, Resumes(w, options), DoneOf(w, options, closedAtStart), Cancelled(w, options, closedAtStart),
          w.checks(LastChecks(w, options, closedAtStart)), w.candidate(LastRead(w, options, closedAtStart)), false)
  }

  /** What supports a repair, as the run knows it after the first checks. */
  predicate Supported(options: Options, resumed: bool, done: Implementing, cancelled: bool, candidate: Candidate) {
    var completed := options.verifyOnly || resumed || done.latest == Some(WorkerCompleted);
    completed || (done.latest == Some(WorkerTimedOut) && candidate.delta && !cancelled)
  }

  lemma RepairsWhenSupported(w: World, options: Options, closedAtStart: bool)
    ensures var at := FirstChecks(w, options, closedAtStart);
            var candidate := w.candidate(at + 1);
            Repairs(w, options, closedAtStart)
            <==> && !AllPass(w.checks(at)) && options.allowRepair
                 && Supported(options, Resumes(w, options), DoneOf(w, options, closedAtStart),
                              Cancelled(w, options, closedAtStart), candidate)
                 && candidate.delta && w.evidence(w.checks(at))
  {
  }

  predicate Reviews(f: Facts) {
    f.options.review && f.candidate.delta && f.RecoveryAllowed() && MechanicalPass(f.checks)
  }

  predicate ReviewPasses(w: World, f: Facts) {
    Reviews(f) && w.worker(ReviewRole) == WorkerCompleted && w.reviewPassed
  }

  function FactsOf(w: World, options: Options, closedAtStart: bool): Facts {
    var before := FactsBefore(w, options, closedAtStart);
    before.(reviewPass := ReviewPasses(w, before))
  }

  function RolesBeforeChecks(w: World, options: Options, closedAtStart: bool): seq<Role> {
    if !Implements(w, options) then []
    else if DecisionOf(w, 1, closedAtStart).eligible then [Implementation, ImplementationRetry]
    else [Implementation]
  }

  /** The workers of a whole run, in order. */
  function RolesOf(w: World, options: Options, closedAtStart: bool): seq<Role> {
    RolesBeforeChecks(w, options, closedAtStart)
    + (if Repairs(w, options, closedAtStart) then [Repair] else [])
    + (if Reviews(FactsBefore(w, options, closedAtStart)) then [ReviewRole] else [])
  }

  /** A run passes if and only if its last checks all pass on a changed candidate, whose author,
      if this run launched one, finished or timed out without the run being cancelled, and a
      review that is asked for passes. */
  lemma PassesExactly(w: World, options: Options, closedAtStart: bool)
    ensures var latest := DoneOf(w, options, closedAtStart).latest;
            DispositionOf(FactsOf(w, options, closedAtStart)) == Pass
            <==> && MechanicalPass(w.checks(LastChecks(w, options, closedAtStart)))
                 && w.candidate(LastRead(w, options, closedAtStart)).delta
                 && !Cancelled(w, options, closedAtStart)
                 && (Implements(w, options) ==> latest == Some(WorkerCompleted) || latest == Some(WorkerTimedOut))
                 && (options.review ==> w.worker(ReviewRole) == WorkerCompleted && w.reviewPassed)
  {
    var before := FactsBefore(w, options, closedAtStart);
    assert before.ProtocolCompleted() ==> (before.RecoveryAllowed() <==> !before.cancelled);
    assert !Implements(w, options) ==> before.ProtocolCompleted();
  }

  /** This run implements: it may, and nothing was there before. */
  predicate Started(w: World, options: Options) {
    !options.verifyOnly && !w.candidate(0).delta
  }

  /** The first attempt completed and changed nothing; then the issue is fetched again. */
  predicate Idle(w: World, options: Options) {
    Started(w, options) && w.worker(Implementation) == WorkerCompleted && !w.candidate(2).delta
  }

  predicate Retried(w: World, options: Options) {
    Idle(w, options) && options.retryBudget > 0 && !w.issueClosed(3) && !w.aborted(4)
  }

  /** Under the policy in use: which attempts are made, where the first checks come after them,
      and what is known of the implementation then. */
  lemma AttemptsExactly(w: World, options: Options, closedAtStart: bool)
    requires FollowsPolicy(w, options.retryBudget)
    ensures RolesBeforeChecks(w, options, closedAtStart)
            == if Retried(w, options) then [Implementation, ImplementationRetry]
               else if Started(w, options) then [Implementation] else []
    ensures FirstChecks(w, options, closedAtStart)
            == if Retried(w, options) then 6 else if Idle(w, options) then 4 else if Started(w, options) then 3 else 1
    ensures var done := DoneOf(w, options, closedAtStart);
            && done.latest == (if Retried(w, options) then Some(w.worker(ImplementationRetry))
                               else if Started(w, options) then Some(w.worker(Implementation)) else None)
            && done.closed == (if Idle(w, options) then w.issueClosed(3) else closedAtStart)
            && (done.retryExhausted <==>
                  if Retried(w, options)
                  then options.retryBudget == 1 && done.latest == Some(WorkerCompleted) && !w.candidate(5).delta
                  else Started(w, options) && options.retryBudget == 0)
  {
    if Started(w, options) {
      var decision := DecisionOf(w, 1, closedAtStart);
      assert decision == DecideRetry(w.worker(Implementation), w.candidate(2), ClosedAfter(w, 1, closedAtStart), 0,
                                     options.retryBudget, w.aborted(AttemptEnd(w, 1)));
      if decision.eligible {
        assert w.retry(w.worker(ImplementationRetry), w.candidate(5), w.issueClosed(3), 1, w.aborted(6))
            == DecideRetry(w.worker(ImplementationRetry), w.candidate(5), w.issueClosed(3), 1, options.retryBudget,
                           w.aborted(6));
      }
    }
  }

  /** The rest of a run, from where its first checks come: whether it is cancelled, whether it
      repairs and is reviewed, and which checks and which candidate are reported. */
  lemma RestExactly(w: World, options: Options, closedAtStart: bool)
    ensures var c, latest := FirstChecks(w, options, closedAtStart), DoneOf(w, options, closedAtStart).latest;
            var cancelled := Started(w, options) && (w.aborted(c + 1) || latest == Some(WorkerCancelled));
            var author := !Started(w, options) || latest == Some(WorkerCompleted)
                          || (latest == Some(WorkerTimedOut) && !cancelled);
            var repaired := !AllPass(w.checks(c)) && options.allowRepair && w.candidate(c + 1).delta
                            && w.evidence(w.checks(c)) && author;
            var facts, roles := FactsOf(w, options, closedAtStart), RolesOf(w, options, closedAtStart);
            && facts.cancelled == cancelled && (facts.resumed <==> !options.verifyOnly && w.candidate(0).delta)
            && facts.checks == w.checks(if repaired then c + 3 else c)
            && facts.candidate == w.candidate(if repaired then c + 4 else c + 2)
            && (Repair in roles <==> repaired)
            && (ReviewRole in roles <==>
                  options.review && facts.candidate.delta && MechanicalPass(facts.checks) && !cancelled && author)
            && (facts.reviewPass <==> ReviewRole in roles && w.worker(ReviewRole) == WorkerCompleted && w.reviewPassed)
  {
    var front := RolesBeforeChecks(w, options, closedAtStart);
    assert Repair !in front && ReviewRole !in front;
  }

  class BootstrapRun {
    const world: World
    const options: Options
    var log: seq<Action>

    constructor (world: World, options: Options)
      ensures log == [] && this.world == world && this.options == options
    {
      this.world, this.options, this.log := world, options, [];
    }

    method RunWorker(role: Role) returns (d: WorkerDisposition)
      requires Below(Roles(log), Rank(role))
      modifies this`log
      ensures log == old(log) + [Launch(role)] && d == world.worker(role)
      ensures Roles(log) == Roles(old(log)) + [role] && Below(Roles(log), Rank(role) + 1)
    {
      RolesAppend(log, Launch(role));
      BelowAppend(Roles(log), role);
      d := world.worker(role);
      log := log + [Launch(role)];
    }

    method ReadCandidateState() returns (c: Candidate)
      modifies this`log
      ensures log == old(log) + [ReadCandidate] && c == world.candidate(|old(log)|)
      ensures Roles(log) == Roles(old(log))
    {
      RolesAppend(log, ReadCandidate);
      c := world.candidate(|log|);
      log := log + [ReadCandidate];
    }

    method Check() returns (checks: seq<bool>)
      modifies this`log
      ensures log == old(log) + [RunChecks] && checks == world.checks(|old(log)|)
      ensures Roles(log) == Roles(old(log))
    {
      RolesAppend(log, RunChecks);
      checks := world.checks(|log|);
      log := log + [RunChecks];
    }

    method Fetch() returns (closed: bool)
      modifies this`log
      ensures log == old(log) + [FetchIssue] && closed == world.issueClosed(|old(log)|)
      ensures Roles(log) == Roles(old(log))
    {
      RolesAppend(log, FetchIssue);
      closed := world.issueClosed(|log|);
      log := log + [FetchIssue];
    }

    /** The first implementation, and what the policy decides after it. The issue is fetched
        again only for a completed worker that changed nothing. */
    method FirstAttempt(closedAtStart: bool) returns (first: WorkerDisposition, closed: bool, decision: RetryDecision)
      requires Roles(log) == []
      modifies this`log
      ensures old(log) <= log && Roles(log) == [Implementation] && Below(Roles(log), 1)
      ensures first == world.worker(Implementation) && closed == ClosedAfter(world, |old(log)|, closedAtStart)
      ensures decision == DecisionOf(world, |old(log)|, closedAtStart) && |log| == AttemptEnd(world, |old(log)|)
      ensures FollowsPolicy(world, options.retryBudget) && decision.eligible ==>
                options.retryBudget > 0 && first == WorkerCompleted && !world.candidate(|old(log)| + 1).delta && !closed
    {
      first := RunWorker(Implementation);
      var after := ReadCandidateState();
      closed := closedAtStart;
      if !after.delta && first == WorkerCompleted { closed := Fetch(); }
      decision := world.retry(first, after, closed, 0, world.aborted(|log|));
      if FollowsPolicy(world, options.retryBudget) && decision.eligible {
        RetryFollowsPolicy(world, options.retryBudget, first, after, closed, 0, world.aborted(|log|));
      }
    }

    /** The implementation and, once at most and exactly when the policy says so, its retry. */
    method Implement(closedAtStart: bool) returns (done: Implementing, decision: RetryDecision)
      requires Roles(log) == []
      modifies this`log
      ensures old(log) <= log && Below(Roles(log), 2)
      ensures Roles(log) == if decision.eligible then [Implementation, ImplementationRetry] else [Implementation]
      ensures done == ImplementingOf(world, |old(log)|, closedAtStart)
      ensures decision == DecisionOf(world, |old(log)|, closedAtStart)
      ensures |log| == ImplementEnd(world, |old(log)|, closedAtStart)
      ensures done.latest == Some(world.worker(if decision.eligible then ImplementationRetry else Implementation))
      ensures FollowsPolicy(world, options.retryBudget) && decision.eligible ==>
                && options.retryBudget > 0 && world.worker(Implementation) == WorkerCompleted
                && !world.candidate(|old(log)| + 1).delta && !done.closed
    {
      var first, closed;
      first, closed, decision := FirstAttempt(closedAtStart);
      if !decision.eligible { return Implementing(Some(first), decision.exhausted, closed), decision; }
      var second := RunWorker(ImplementationRetry);
      var afterRetry := ReadCandidateState();
      var again := world.retry(second, afterRetry, closed, 1, world.aborted(|log|));
      done := Implementing(Some(second), again.exhausted && second == WorkerCompleted && !afterRetry.delta, closed);
    }

    /** Everything up to the first checks and the reading of the candidate after them. */
    method Prepare(closedAtStart: bool)
      returns (resumed: bool, done: Implementing, cancelled: bool, first: seq<bool>, candidate: Candidate)
      requires log == []
      modifies this`log
      ensures |log| >= 2 && log[|log| - 2] == RunChecks && log[|log| - 1] == ReadCandidate
      ensures first == world.checks(|log| - 2) && candidate == world.candidate(|log| - 1)
      ensures |log| == FirstChecks(world, options, closedAtStart) + 2
      ensures resumed == Resumes(world, options) && done == DoneOf(world, options, closedAtStart)
      ensures cancelled == Cancelled(world, options, closedAtStart)
      ensures Below(Roles(log), 2) && Roles(log) == RolesBeforeChecks(world, options, closedAtStart)
    {
      var before := ReadCandidateState();
      resumed := !options.verifyOnly && before.delta;
      done := Implementing(None, false, closedAtStart);
      if !options.verifyOnly && !resumed {
        var decision;
        done, decision := Implement(closedAtStart);
      }
      var at := |log| + 1;
      first, candidate := CheckAndRead();
      cancelled := !options.verifyOnly && !resumed && (world.aborted(at) || done.latest == Some(WorkerCancelled));
    }

    method CheckAndRead() returns (checks: seq<bool>, candidate: Candidate)
      modifies this`log
      ensures log == old(log) + [RunChecks, ReadCandidate] && Roles(log) == Roles(old(log))
      ensures checks == world.checks(|old(log)|) && candidate == world.candidate(|old(log)| + 1)
    {
      checks := Check();
      candidate := ReadCandidateState();
    }

    /** One repair, when checks failed on a candidate that may be repaired, and the reading of
        the candidate that is reported. */
    method RepairIfNeeded(first: seq<bool>, due: bool)
      returns (checks: seq<bool>, outcome: RepairOutcome, checkedAt: nat, candidate: Candidate)
      requires |log| >= 2 && log[|log| - 2] == RunChecks && log[|log| - 1] == ReadCandidate
      requires first == world.checks(|log| - 2)
      requires Below(Roles(log), 2)
      modifies this`log
      ensures checkedAt < |log| && log[checkedAt] == RunChecks && checks == world.checks(checkedAt)
      ensures log[|log| - 1] == ReadCandidate && candidate == world.candidate(|log| - 1)
      ensures OnlyReviewAfter(log, checkedAt) && Below(Roles(log), 3)
      ensures Roles(log) == Roles(old(log)) + if !AllPass(first) && options.allowRepair && due then [Repair] else []
      ensures OnlyReviewAfter(log, |log| - 1)
      ensures var repaired := !AllPass(first) && options.allowRepair && due;
              && checkedAt == (if repaired then |old(log)| + 1 else |old(log)| - 2)
              && |log| == |old(log)| + if repaired then 3 else 1
      ensures outcome == NotNeeded <==> AllPass(first)
      ensures outcome == Disabled <==> !AllPass(first) && !options.allowRepair
      ensures outcome == Ineligible <==> !AllPass(first) && options.allowRepair && !due
      ensures outcome == RepairFailed ==> AllPass(checks) && world.worker(Repair) != WorkerCompleted
      ensures outcome == RepairCompleted ==> world.worker(Repair) == WorkerCompleted
      ensures outcome == RepairCompleted ==> AllPass(checks) && !AllPass(first)
      ensures outcome == RepairExhausted ==> !AllPass(checks)
    {
      checks, checkedAt := first, |log| - 2;
      outcome := if AllPass(first) then NotNeeded else if options.allowRepair then Ineligible else Disabled;
      if !AllPass(first) && options.allowRepair && due {
        var worker := RunWorker(Repair);
        outcome := if worker == WorkerCompleted then RepairCompleted else RepairFailed;
        checks := Check();
        checkedAt := |log| - 1;
        if !AllPass(checks) { outcome := RepairExhausted; }
      }
      candidate := ReadCandidateState();
    }

    /** The independent review of a candidate that passed every check. */
    method ReviewIfDue(f: Facts) returns (pass: bool)
      requires Below(Roles(log), 3)
      modifies this`log
      ensures log == old(log) || log == old(log) + [Launch(ReviewRole)]
      ensures log != old(log) <==> Reviews(f)
      ensures Roles(log) == Roles(old(log)) + (if log != old(log) then [ReviewRole] else []) && Below(Roles(log), 4)
      ensures pass == ReviewPasses(world, f)
    {
      pass := false;
      if Reviews(f) {
        var reviewer := RunWorker(ReviewRole);
        pass := reviewer == WorkerCompleted && world.reviewPassed;
      }
    }

    /** The review, if it is due, and the judgement. */
    method Conclude(before: Facts, repair: RepairOutcome, ghost checkedAt: nat, ghost readAt: nat)
        returns (report: Report, facts: Facts)
      requires Below(Roles(log), 3) && before.options == options
      requires OnlyReviewAfter(log, checkedAt) && OnlyReviewAfter(log, readAt)
      modifies this`log
      ensures facts == before.(reviewPass := ReviewPasses(world, before)) && Below(Roles(log), 4) && |Roles(log)| <= 4
      ensures Roles(log) == Roles(old(log)) + if Reviews(before) then [ReviewRole] else []
      ensures old(log) <= log && OnlyReviewAfter(log, checkedAt) && OnlyReviewAfter(log, readAt)
      ensures report == Report(DispositionOf(facts), ImplementationOf(facts), FinalizationReady(facts), repair,
                               facts.checks, facts.candidate)
      ensures report.finalizationReady <==> report.disposition == Pass && !report.candidate.behindOriginMain
      ensures report.disposition == Pass && options.review ==>
                ReviewRole in Roles(log) && world.worker(ReviewRole) == WorkerCompleted && world.reviewPassed
    {
      ReviewMayFollow(log, checkedAt);
      ReviewMayFollow(log, readAt);
      var reviewPass := ReviewIfDue(before);
      BelowSize(Roles(log), 4);
      facts := before.(reviewPass := reviewPass);
      ReadyExactly(facts);
      report := Report(DispositionOf(facts), ImplementationOf(facts), FinalizationReady(facts), repair,
                       facts.checks, facts.candidate);
    }

    /** The whole pipeline. The report's checks and candidate were taken at the points returned;
        only the review may have been launched after either of them. */
    method RunBootstrap(closedAtStart: bool) returns (report: Report, facts: Facts, checkedAt: nat, readAt: nat)
      requires log == []
      modifies this`log
      ensures InOrder(Roles(log)) && |Roles(log)| <= 4
      ensures checkedAt < |log| && log[checkedAt] == RunChecks && report.checks == world.checks(checkedAt)
      ensures readAt < |log| && log[readAt] == ReadCandidate && report.candidate == world.candidate(readAt)
      ensures OnlyReviewAfter(log, checkedAt) && OnlyReviewAfter(log, readAt)
      ensures facts == FactsOf(world, options, closedAtStart)
      ensures facts.checks == report.checks && facts.candidate == report.candidate
      ensures report.disposition == DispositionOf(facts) && report.implementation == ImplementationOf(facts)
      ensures report.finalizationReady <==> report.disposition == Pass && !report.candidate.behindOriginMain
      ensures report.repair == RepairOf(world, options, closedAtStart)
      ensures Roles(log) == RolesOf(world, options, closedAtStart)
      ensures report.disposition == Pass && options.review ==>
                ReviewRole in Roles(log) && world.worker(ReviewRole) == WorkerCompleted && world.reviewPassed
    {
      var before, repair;
      before, repair, checkedAt := Work(closedAtStart);
      readAt := |log| - 1;
      report, facts := Conclude(before, repair, checkedAt, readAt);
    }

    /** Everything up to the candidate that is reported. */
    method Work(closedAtStart: bool) returns (before: Facts, repair: RepairOutcome, checkedAt: nat)
      requires log == []
      modifies this`log
      ensures before == FactsBefore(world, options, closedAtStart)
      ensures repair == RepairOf(world, options, closedAtStart)
      ensures checkedAt == LastChecks(world, options, closedAtStart)
      ensures |log| == LastRead(world, options, closedAtStart) + 1
      ensures checkedAt < |log| && log[checkedAt] == RunChecks && log[|log| - 1] == ReadCandidate
      ensures OnlyReviewAfter(log, checkedAt) && OnlyReviewAfter(log, |log| - 1) && Below(Roles(log), 3)
      ensures Roles(log) == RolesBeforeChecks(world, options, closedAtStart)
                            + if Repairs(world, options, closedAtStart) then [Repair] else []
    {
      var resumed, done, cancelled, first, atRepair := Prepare(closedAtStart);
      var supported := Supported(options, resumed, done, cancelled, atRepair);
      RepairsWhenSupported(world, options, closedAtStart);
      var checks, outcome, checked, candidate :=
        RepairIfNeeded(first, supported && atRepair.delta && world.evidence(first));
      repair, checkedAt := outcome, checked;
      before := Facts(options, resumed, done, cancelled, checks, candidate, false);
    }
  }
}
