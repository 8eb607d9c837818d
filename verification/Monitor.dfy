/** The monitor that polls for eligible work and launches the shared scheduler. */
module Monitor {
  import opened Text
  import opened RunCancellation

  datatype Phase = Stopped | Monitoring | Working | Backoff | Stopping

  datatype Status = Status(
    running: bool,
    phase: Phase,
    nextCheckAt: Option<int>,
    activeRun: Option<RunId>,
    failed: bool,
    wakeUps: nat,
    schedulerLaunches: nat,
    authorityChecks: nat)

  /** Where a call of `checkNow` waits: each stretch between awaits is one step. */
  datatype Check = Discovering | Scheduling(runId: RunId, controller: Controller)

  type Handle = nat

  datatype State = State(
    pollIntervalMs: nat,
    maxBackoffMs: nat,
    generation: nat,
    running: bool,
    stopRequested: bool,
    checkInFlight: bool,
    backoffMs: nat,
    timer: Option<Handle>,
    activeController: Option<Controller>,
    status: Status,
    armed: map<Handle, int>,   // the host's pending timers and when they are due
    pending: seq<Check>,       // the calls of `checkNow` that have not returned
    nextHandle: Handle,
    nextController: Controller,
    registry: Registry,
    launched: seq<RunId>,      // history: every scheduler launch
    failures: nat)             // history: failed checks since the last discovery success or start

  datatype Event =
    | Start(now: int)
    | Stop
    | TimerFires(handle: Handle)
    | CheckNow
    | DiscoverySucceeds(call: nat, candidate: bool, now: int)
    | DiscoveryFails(call: nat, now: int)
    | SchedulerResolves(call: nat, now: int)
    | SchedulerRejects(call: nat, now: int)
    | ExternalAbort(runId: RunId)

  // ---------- configuration ----------

  const DEFAULT_POLL_INTERVAL_MS: nat := 60_000
  const DEFAULT_MAX_BACKOFF_MS: nat := 600_000
  const MIN_POLL_INTERVAL_MS: nat := 1_000
  const MAX_DELAY_MS: nat := 86_400_000

  datatype Number = Integer(value: int) | NotAnInteger

  function BoundedDelay(n: Number, fallback: nat, min: nat, max: nat): nat {
    if n.Integer? && min <= n.value <= max then n.value else fallback
  }

  function Min(a: int, b: int): int { if a <= b then a else b }

  function Max(a: int, b: int): int { if a <= b then b else a }

  function Init(poll: Number, maxBackoff: Number, generation: nat): State {
    var p := BoundedDelay(poll, DEFAULT_POLL_INTERVAL_MS, MIN_POLL_INTERVAL_MS, MAX_DELAY_MS);
    var m := BoundedDelay(maxBackoff, DEFAULT_MAX_BACKOFF_MS, p, MAX_DELAY_MS);
    State(p, m, generation, false, false, false, 0, None, None,
          Status(false, Stopped, None, None, false, 0, 0, 0),
          map[], [], 0, 0, Registry(map[], {}), [], 0)
  }

  /** The delays in use: those configured, when they are whole numbers in range, and otherwise
      one minute, and ten. The longest backoff is at least the poll interval, if that is at most
      ten minutes or a longest backoff is configured in range. */
  lemma ConfiguredDelays(poll: Number, maxBackoff: Number, generation: nat)
    ensures var s := Init(poll, maxBackoff, generation);
            && 1_000 <= s.pollIntervalMs <= 86_400_000
            && (if poll.Integer? && 1_000 <= poll.value <= 86_400_000 then s.pollIntervalMs == poll.value
                else s.pollIntervalMs == 60_000)
            && (if maxBackoff.Integer? && s.pollIntervalMs <= maxBackoff.value <= 86_400_000
                then s.maxBackoffMs == maxBackoff.value else s.maxBackoffMs == 600_000)
  {
  }

  // ---------- steps ----------

  /** Replaces the pending timer. */
  function Schedule(s: State, delay: nat, now: int): State {
    var kept := if s.timer.Some? then s.armed - {s.timer.value} else s.armed;
    s.(timer := Some(s.nextHandle),
       armed := kept[s.nextHandle := now + delay],
       nextHandle := s.nextHandle + 1,
       status := s.status.(nextCheckAt := Some(now + delay)))
  }

  function StartStep(s: State, now: int): State {
    if s.running then s
    else Schedule(
      s.(running := true, stopRequested := false, backoffMs := 0, failures := 0,
         status := s.status.(running := true, phase := Monitoring, nextCheckAt := Some(now), failed := false)),
      0, now)
  }

  function StopStep(s: State): State {
    s.(stopRequested := true,
       running := false,
       armed := if s.timer.Some? then s.armed - {s.timer.value} else s.armed,
       timer := None,
       registry := if s.status.activeRun.Some? then s.registry.AbortRun(s.status.activeRun.value) else s.registry,
       status := s.status.(running := false, phase := if s.checkInFlight then Stopping else Stopped,
                           nextCheckAt := None))
  }

  function BeginCheck(s: State): State {
    if !s.running || s.checkInFlight then s
    else s.(checkInFlight := true,
            pending := s.pending + [Discovering],
            status := s.status.(phase := Monitoring, authorityChecks := s.status.authorityChecks + 1))
  }

  function TimerStep(s: State, handle: Handle): State {
    if handle in s.armed then BeginCheck(s.(timer := None, armed := s.armed - {handle})) else s
  }

  /** The `finally` block that ends a call. */
  function Settle(s: State, call: nat): State
    requires call < |s.pending|
  {
    s.(checkInFlight := false,
       pending := s.pending[..call] + s.pending[call + 1..],
       status := if !s.running && s.status.phase == Stopping then s.status.(phase := Stopped) else s.status)
  }

  /** The end of the `try` block: poll again, or report the stop. */
  function PollOrStop(s: State, now: int): State {
    if s.running && !s.stopRequested then Schedule(s, s.pollIntervalMs, now)
    else s.(status := s.status.(phase := Stopped, running := false, nextCheckAt := None))
  }

  function NextBackoff(s: State): nat {
    if s.backoffMs != 0 then Min(s.maxBackoffMs, s.backoffMs * 2)
    else Min(s.maxBackoffMs, Max(s.pollIntervalMs, MIN_POLL_INTERVAL_MS))
  }

  /** The `catch` block. */
  function Failed(s: State, schedulerAborted: bool, now: int): State {
    if schedulerAborted || s.stopRequested then
      s.(status := s.status.(phase := Stopped, running := false, activeRun := None, nextCheckAt := None,
                             failed := false))
    else
      var next := NextBackoff(s);
      var failed := s.(backoffMs := next, failures := s.failures + 1,
                       status := s.status.(phase := if s.running then Backoff else Stopped, failed := true));
      if failed.running && !failed.stopRequested then Schedule(failed, next, now) else failed
  }

  function Launch(s: State, call: nat): State
    requires call < |s.pending|
  {
    var wake := s.status.wakeUps + 1;
    var runId, controller := RunId(s.generation, wake), s.nextController;
    s.(pending := s.pending[call := Scheduling(runId, controller)],
       nextController := controller + 1,
       registry := s.registry.Register(runId, controller),
       activeController := Some(controller),
       launched := s.launched + [runId],
       status := s.status.(phase := Working, activeRun := Some(runId), wakeUps := wake,
                           schedulerLaunches := s.status.schedulerLaunches + 1))
  }

  function DiscoverySucceedsStep(s: State, call: nat, candidate: bool, now: int): State
    requires call < |s.pending|
  {
    var found := s.(backoffMs := 0, failures := 0, status := s.status.(phase := Monitoring, failed := false));
    if candidate && !found.stopRequested then Launch(found, call)
    else Settle(PollOrStop(found, now), call)
  }

  predicate Waiting(s: State, call: nat) {
    call < |s.pending| && s.pending[call].Scheduling?
  }

  /** The inner `finally`: the run's controller is unregistered. */
  function EndRun(s: State, call: nat): State
    requires Waiting(s, call)
  {
    var check := s.pending[call];
    s.(registry := s.registry.Unregister(check.runId, check.controller),
       activeController := if s.activeController == Some(check.controller) then None else s.activeController)
  }

  function ResolvesStep(s: State, call: nat, now: int): State
    requires Waiting(s, call)
  {
    var ended := EndRun(s, call);
    var next :=
      if s.pending[call].controller in s.registry.aborted then
        ended.(stopRequested := true, running := false,
               status := s.status.(phase := Stopped, running := false, activeRun := None, nextCheckAt := None))
      else ended.(status := s.status.(phase := Monitoring, activeRun := None));
    Settle(PollOrStop(next, now), call)
  }

  function RejectsStep(s: State, call: nat, now: int): State
    requires Waiting(s, call)
  {
    Settle(Failed(EndRun(s, call), s.pending[call].controller in s.registry.aborted, now), call)
  }

  function Step(s: State, e: Event): State {
    match e
    case Start(now) => StartStep(s, now)
    case Stop => StopStep(s)
    case TimerFires(h) => TimerStep(s, h)
    case CheckNow => BeginCheck(s)
    case DiscoverySucceeds(call, candidate, now) =>
      if call < |s.pending| && s.pending[call].Discovering? then DiscoverySucceedsStep(s, call, candidate, now) else s
    case DiscoveryFails(call, now) =>
      if call < |s.pending| && s.pending[call].Discovering? then Settle(Failed(s, false, now), call) else s
    case SchedulerResolves(call, now) => if Waiting(s, call) then ResolvesStep(s, call, now) else s
    case SchedulerRejects(call, now) => if Waiting(s, call) then RejectsStep(s, call, now) else s
    case ExternalAbort(runId) => s.(registry := s.registry.AbortRun(runId))
  }

  function Run(s: State, events: seq<Event>): State {
    if events == [] then s else Step(Run(s, events[..|events| - 1]), events[|events| - 1])
  }

  // ---------- what holds in every run ----------

  /** Holds whatever the environment does. */
  ghost predicate Inv(s: State) {
    && s.armed.Keys == (if s.timer.Some? then {s.timer.value} else {})
    && (s.timer.Some? ==> s.timer.value < s.nextHandle)
    && |s.pending| == (if s.checkInFlight then 1 else 0)
    && (s.running ==> !s.stopRequested)
    && (s.checkInFlight && !s.running ==> s.stopRequested)
    && (Waiting(s, 0) ==> RunTracked(s, s.pending[0]))
    && LaunchesCounted(s)
    && (forall r :: r in s.registry.controllers ==> s.registry.controllers[r] < s.nextController)
    && (forall c :: c in s.registry.aborted ==> c < s.nextController)
  }

  /** The run that is waited for can be found and aborted, and a stop has aborted it. */
  ghost predicate RunTracked(s: State, check: Check)
    requires check.Scheduling?
  {
    && check.runId == RunId(s.generation, s.status.wakeUps)
    && s.status.activeRun == Some(check.runId)
    && check.runId in s.registry.controllers
    && s.registry.controllers[check.runId] == check.controller
    && s.activeController == Some(check.controller)
    && (s.stopRequested ==> check.controller in s.registry.aborted)
  }

  /** One launch for each wake-up, each under a run id of its own. */
  ghost predicate LaunchesCounted(s: State) {
    && s.status.schedulerLaunches == s.status.wakeUps == |s.launched|
    && forall i :: 0 <= i < |s.launched| ==> s.launched[i] == RunId(s.generation, i + 1)
  }

  /** What a user sees agrees with what the monitor is doing. */
  ghost predicate Consistent(s: State) {
    && s.status.running == s.running
    && (!s.checkInFlight && s.running ==>
          && s.timer.Some? && s.timer.value in s.armed
          && s.status.nextCheckAt == Some(s.armed[s.timer.value])
          && (s.status.phase == Monitoring || s.status.phase == Backoff))
    && (!s.checkInFlight && !s.running ==> s.status.phase == Stopped && s.status.nextCheckAt == None)
  }

  /** An aborted scheduler call that rejects while the monitor is marked as running. */
  predicate RejectsWhileWanted(s: State, e: Event) {
    e.SchedulerRejects? && Waiting(s, e.call) && s.pending[e.call].controller in s.registry.aborted && s.running
  }

  lemma StartKeepsInv(s: State, e: Event)
    requires Inv(s) && (e.Start? || e.Stop? || e.TimerFires? || e.CheckNow? || e.ExternalAbort?)
    ensures Inv(Step(s, e))
  {
  }

  lemma DiscoveryKeepsInv(s: State, e: Event)
    requires Inv(s) && (e.DiscoverySucceeds? || e.DiscoveryFails?)
    ensures Inv(Step(s, e))
  {
  }

  lemma ResolveKeepsInv(s: State, call: nat, now: int)
    requires Inv(s) && Waiting(s, call)
    ensures Inv(ResolvesStep(s, call, now))
  {
    assert call == 0 && s.pending[..0] + s.pending[1..] == [];
  }

  lemma RejectKeepsInv(s: State, call: nat, now: int)
    requires Inv(s) && Waiting(s, call)
    ensures Inv(RejectsStep(s, call, now))
  {
    assert call == 0 && s.pending[..0] + s.pending[1..] == [];
  }

  lemma {:induction false} InvAlways(poll: Number, maxBackoff: Number, generation: nat, events: seq<Event>)
    ensures Inv(Run(Init(poll, maxBackoff, generation), events))
  {
    if events != [] {
      var n := |events| - 1;
      InvAlways(poll, maxBackoff, generation, events[..n]);
      StepKeepsInv(Run(Init(poll, maxBackoff, generation), events[..n]), events[n]);
    }
  }

  lemma StepKeepsInv(s: State, e: Event)
    requires Inv(s)
    ensures Inv(Step(s, e))
  {
    match e
    case DiscoverySucceeds(_, _, _) => DiscoveryKeepsInv(s, e);
    case DiscoveryFails(_, _) => DiscoveryKeepsInv(s, e);
    case SchedulerResolves(call, now) => if Waiting(s, call) { ResolveKeepsInv(s, call, now); }
    case SchedulerRejects(call, now) => if Waiting(s, call) { RejectKeepsInv(s, call, now); }
    case _ => StartKeepsInv(s, e);
  }

  /** No two launches ever share a run id, and the registry lets the current one be aborted. */
  lemma RunIdsNeverRepeat(poll: Number, maxBackoff: Number, generation: nat, events: seq<Event>)
    ensures var s := Run(Init(poll, maxBackoff, generation), events);
            && s.status.schedulerLaunches == s.status.wakeUps == |s.launched|
            && (forall i, j :: 0 <= i < j < |s.launched| ==> s.launched[i] != s.launched[j])
            && |s.armed| <= 1 && |s.pending| <= 1
  {
    InvAlways(poll, maxBackoff, generation, events);
    var s := Run(Init(poll, maxBackoff, generation), events);
    assert |s.armed.Keys| <= 1;
  }

  // ---------- what each event changes, field by field ----------

  predicate AwaitsDiscovery(s: State, call: nat) {
    call < |s.pending| && s.pending[call].Discovering?
  }

  predicate Aborted(s: State, call: nat)
    requires Waiting(s, call)
  {
    s.pending[call].controller in s.registry.aborted
  }

  /** The one event that launches a run: discovery finds a candidate and no stop was requested. */
  predicate Launches(s: State, e: Event) {
    e.DiscoverySucceeds? && AwaitsDiscovery(s, e.call) && e.candidate && !s.stopRequested
  }

  lemma LaunchedExactly(s: State, e: Event)
    ensures Step(s, e).launched
            == s.launched + if Launches(s, e) then [RunId(s.generation, s.status.wakeUps + 1)] else []
  {
    match e
    case Start(_) =>
    case Stop =>
    case TimerFires(_) =>
    case CheckNow =>
    case DiscoverySucceeds(_, _, _) =>
    case DiscoveryFails(_, _) =>
    case SchedulerResolves(_, _) =>
    case SchedulerRejects(_, _) =>
    case ExternalAbort(_) =>
  }

  /** When the next check is due. */
  function Due(s: State): Option<int>
    requires Inv(s)
  {
    if s.timer.Some? then Some(s.armed[s.timer.value]) else None
  }

  /** After a failed check the delay doubles, from the poll interval on, up to the maximum. */
  function Doubled(s: State): int {
    var next := if s.backoffMs == 0 then s.pollIntervalMs else 2 * s.backoffMs;
    if next <= s.maxBackoffMs then next else s.maxBackoffMs
  }

  /** When the next check is due after an event: a start checks at once; a check that ends well
      under a running monitor polls again; one that fails backs off; a timer that fires and a
      stop leave none. */
  function DueAfter(s: State, e: Event): Option<int>
    requires Inv(s)
  {
    match e
    case Start(now) => if s.running then Due(s) else Some(now)
    case Stop => None
    case TimerFires(handle) => if Some(handle) == s.timer then None else Due(s)
    case DiscoverySucceeds(call, candidate, now) =>
      if AwaitsDiscovery(s, call) && s.running && !candidate then Some(now + s.pollIntervalMs) else Due(s)
    case DiscoveryFails(call, now) =>
      if AwaitsDiscovery(s, call) && s.running then Some(now + Doubled(s)) else Due(s)
    case SchedulerResolves(call, now) =>
      if Waiting(s, call) && s.running && !Aborted(s, call) then Some(now + s.pollIntervalMs) else Due(s)
    case SchedulerRejects(call, now) =>
      if Waiting(s, call) && s.running && !Aborted(s, call) then Some(now + Doubled(s)) else Due(s)
    case _ => Due(s)
  }

  lemma DueExactly(s: State, e: Event)
    requires Inv(s) && s.pollIntervalMs >= MIN_POLL_INTERVAL_MS
    ensures Inv(Step(s, e)) && Due(Step(s, e)) == DueAfter(s, e)
  {
    StepKeepsInv(s, e);
    if e.DiscoverySucceeds? || e.DiscoveryFails? {
      DueAfterDiscovery(s, e);
    } else if e.SchedulerResolves? || e.SchedulerRejects? {
      DueAfterRun(s, e);
    }
  }

  lemma DueAfterDiscovery(s: State, e: Event)
    requires Inv(s) && s.pollIntervalMs >= MIN_POLL_INTERVAL_MS && (e.DiscoverySucceeds? || e.DiscoveryFails?)
    requires Inv(Step(s, e))
    ensures Due(Step(s, e)) == DueAfter(s, e)
  {
  }

  lemma DueAfterRun(s: State, e: Event)
    requires Inv(s) && s.pollIntervalMs >= MIN_POLL_INTERVAL_MS && (e.SchedulerResolves? || e.SchedulerRejects?)
    requires Inv(Step(s, e))
    ensures Due(Step(s, e)) == DueAfter(s, e)
  {
  }

  /** What starts and ends running. */
  lemma RunningExactly(s: State, e: Event)
    ensures Step(s, e).running ==
              match e
              case Start(_) => true
              case Stop => false
              case SchedulerResolves(call, _) => s.running && !(Waiting(s, call) && Aborted(s, call))
              case _ => s.running
  {
  }

  /** What asks for a stop, and what takes that back. */
  lemma StopRequestedExactly(s: State, e: Event)
    ensures Step(s, e).stopRequested ==
              match e
              case Start(_) => s.running && s.stopRequested
              case Stop => true
              case SchedulerResolves(call, _) => s.stopRequested || (Waiting(s, call) && Aborted(s, call))
              case _ => s.stopRequested
  {
  }

  /** A check begins when a running monitor without one in flight is told to or its timer fires. */
  predicate Begins(s: State, e: Event) {
    s.running && !s.checkInFlight && (e.CheckNow? || (e.TimerFires? && e.handle in s.armed))
  }

  /** A check ends when its discovery comes to no launch, or its run is over. */
  predicate Ends(s: State, e: Event) {
    || (e.DiscoverySucceeds? && AwaitsDiscovery(s, e.call) && !Launches(s, e))
    || (e.DiscoveryFails? && AwaitsDiscovery(s, e.call))
    || ((e.SchedulerResolves? || e.SchedulerRejects?) && Waiting(s, e.call))
  }

  lemma ChecksExactly(s: State, e: Event)
    requires Inv(s)
    ensures Step(s, e).checkInFlight == (Begins(s, e) || (s.checkInFlight && !Ends(s, e)))
  {
  }

  lemma BegunChecksCounted(s: State, e: Event)
    requires Inv(s)
    ensures Step(s, e).status.authorityChecks == s.status.authorityChecks + if Begins(s, e) then 1 else 0
    ensures Begins(s, e) ==> AwaitsDiscovery(Step(s, e), 0)
  {
    match e
    case Start(_) =>
    case Stop =>
    case TimerFires(_) =>
    case CheckNow =>
    case DiscoverySucceeds(_, _, _) =>
    case DiscoveryFails(_, _) =>
    case SchedulerResolves(_, _) =>
    case SchedulerRejects(_, _) =>
    case ExternalAbort(_) =>
  }

  /** Which run the status displays. */
  lemma ActiveRunExactly(s: State, e: Event)
    ensures Step(s, e).status.activeRun ==
              if Launches(s, e) then Some(RunId(s.generation, s.status.wakeUps + 1))
              else
                match e
                case SchedulerResolves(call, _) => if Waiting(s, call) then None else s.status.activeRun
                case SchedulerRejects(call, _) =>
                  if Waiting(s, call) && (Aborted(s, call) || s.stopRequested) then None else s.status.activeRun
                case DiscoveryFails(call, _) =>
                  if AwaitsDiscovery(s, call) && s.stopRequested then None else s.status.activeRun
                case _ => s.status.activeRun
  {
  }

  /** When the status displays an error: from a failed check until a discovery that succeeds, a
      start, or a check that ends because of a stop. */
  lemma ErrorExactly(s: State, e: Event)
    requires Inv(s)
    ensures Step(s, e).status.failed ==
              match e
              case Start(_) => s.running && s.status.failed
              case DiscoverySucceeds(call, _, _) => !AwaitsDiscovery(s, call) && s.status.failed
              case DiscoveryFails(call, _) => if AwaitsDiscovery(s, call) then !s.stopRequested else s.status.failed
              case SchedulerRejects(call, _) =>
                if Waiting(s, call) then !s.stopRequested && !Aborted(s, call) else s.status.failed
              case _ => s.status.failed
  {
  }

  /** Who is aborted: the displayed run by a stop, and a run that its owner aborts. */
  lemma AbortedExactly(s: State, e: Event)
    ensures var run := if e.Stop? then s.status.activeRun else if e.ExternalAbort? then Some(e.runId) else None;
            Step(s, e).registry.aborted
            == s.registry.aborted
               + if run.Some? && run.value in s.registry.controllers then {s.registry.controllers[run.value]} else {}
  {
    match e
    case Start(_) =>
    case Stop =>
    case TimerFires(_) =>
    case CheckNow =>
    case DiscoverySucceeds(_, _, _) =>
    case DiscoveryFails(_, _) =>
    case SchedulerResolves(_, _) =>
    case SchedulerRejects(_, _) =>
    case ExternalAbort(_) =>
  }

  // ---------- the status agrees, exactly while no aborted call rejects under a running monitor ----------

  lemma ConsistentStep(s: State, e: Event)
    requires Inv(s) && Consistent(s)
    ensures Consistent(Step(s, e)) <==> !RejectsWhileWanted(s, e)
  {
    match e
    case DiscoverySucceeds(_, _, _) => ConsistentDiscovery(s, e);
    case DiscoveryFails(_, _) => ConsistentDiscovery(s, e);
    case SchedulerResolves(call, now) => if Waiting(s, call) { ConsistentResolve(s, call, now); }
    case SchedulerRejects(call, now) => if Waiting(s, call) { ConsistentReject(s, call, now); }
    case _ => ConsistentCommand(s, e);
  }

  lemma ConsistentCommand(s: State, e: Event)
    requires Inv(s) && Consistent(s) && (e.Start? || e.Stop? || e.TimerFires? || e.CheckNow? || e.ExternalAbort?)
    ensures Consistent(Step(s, e))
  {
  }

  lemma ConsistentDiscovery(s: State, e: Event)
    requires Inv(s) && Consistent(s) && (e.DiscoverySucceeds? || e.DiscoveryFails?)
    ensures Consistent(Step(s, e))
  {
  }

  lemma ConsistentResolve(s: State, call: nat, now: int)
    requires Inv(s) && Consistent(s) && Waiting(s, call)
    ensures Consistent(ResolvesStep(s, call, now))
  {
  }

  lemma ConsistentReject(s: State, call: nat, now: int)
    requires Inv(s) && Consistent(s) && Waiting(s, call)
    ensures Consistent(RejectsStep(s, call, now))
            <==> !(s.pending[call].controller in s.registry.aborted && s.running)
  {
  }

  ghost predicate AlwaysConsistent(s: State, events: seq<Event>) {
    forall k :: 0 <= k <= |events| ==> Consistent(Run(s, events[..k]))
  }

  ghost predicate NeverRejectsWhileWanted(s: State, events: seq<Event>) {
    forall k :: 0 <= k < |events| ==> !RejectsWhileWanted(Run(s, events[..k]), events[k])
  }

  lemma {:induction false} ConsistentExactly(poll: Number, maxBackoff: Number, generation: nat, events: seq<Event>)
    ensures var s := Init(poll, maxBackoff, generation);
            AlwaysConsistent(s, events) <==> NeverRejectsWhileWanted(s, events)
  {
    var s := Init(poll, maxBackoff, generation);
    if events == [] {
      assert forall k :: 0 <= k <= 0 ==> events[..k] == [];
    } else {
      var n := |events| - 1;
      var front := events[..n];
      assert forall k :: 0 <= k <= n ==> front[..k] == events[..k];
      assert forall k :: 0 <= k < n ==> front[k] == events[k];
      assert events[..n + 1] == events;
      ConsistentExactly(poll, maxBackoff, generation, front);
      InvAlways(poll, maxBackoff, generation, front);
      if Consistent(Run(s, front)) { ConsistentStep(Run(s, front), events[n]); }
    }
  }

  // ---------- stopping, restarting, wedging ----------

  /** Once stopped nothing is armed and nothing is launched until the next start. */
  lemma {:induction false} StoppedStaysQuiet(s: State, events: seq<Event>)
    requires Inv(s) && forall i :: 0 <= i < |events| ==> !events[i].Start?
    ensures var after := Run(StopStep(s), events);
            Inv(after) && !after.running && after.stopRequested && after.armed == map[] && after.launched == s.launched
  {
    if events == [] {
      StartKeepsInv(s, Stop);
    } else {
      var n := |events| - 1;
      StoppedStaysQuiet(s, events[..n]);
      var before := Run(StopStep(s), events[..n]);
      StepKeepsInv(before, events[n]);
      QuietStep(before, events[n]);
    }
  }

  lemma QuietStep(s: State, e: Event)
    requires Inv(s) && !s.running && s.stopRequested && s.armed == map[] && !e.Start?
    ensures var next := Step(s, e);
            !next.running && next.stopRequested && next.armed == map[] && next.launched == s.launched
  {
    assert s.armed.Keys == {};
  }

  /** A resolving run leaves the monitor running exactly when it was not aborted:
      a restart made while an aborted run is still ending is undone when it ends. */
  lemma RestartSurvivesExactly(s: State, now: int)
    requires Inv(s) && s.running && Waiting(s, 0)
    ensures var next := Step(s, SchedulerResolves(0, now));
            && (next.running <==> s.pending[0].controller !in s.registry.aborted)
            && (next.running ==> next.timer.Some? && next.status.phase == Monitoring)
  {
  }

  /** A stop and a restart while a run is ending always leave the monitor stopped,
      with the restart's timer armed for nothing. */
  lemma RestartWhileEndingIsLost(s: State, restartAt: int, endAt: int)
    requires Inv(s) && Waiting(s, 0)
    ensures var after := Step(Step(Step(s, Stop), Start(restartAt)), SchedulerResolves(0, endAt));
            !after.running && after.status.phase == Stopped && after.status.nextCheckAt == None && after.armed != map[]
  {
    var restarted := Step(Step(s, Stop), Start(restartAt));
    StartKeepsInv(s, Stop);
    StartKeepsInv(Step(s, Stop), Start(restartAt));
    assert restarted.timer.value in restarted.armed;
  }

  predicate LeavesWedge(e: Event) {
    e.Stop? || e.CheckNow?
  }

  /** Marked as running, with no check in flight and nothing that would begin one. */
  predicate Wedged(s: State) {
    s.running && !s.status.running && !s.checkInFlight && s.pending == [] && s.armed == map[]
  }

  lemma WedgedStep(s: State, e: Event)
    requires Wedged(s) && !LeavesWedge(e)
    ensures Wedged(Step(s, e))
    ensures Step(s, e).launched == s.launched && Step(s, e).status.authorityChecks == s.status.authorityChecks
  {
  }

  /** After an aborted call rejected under a running monitor whose timer is spent, the
      monitor claims to run, never checks again, and cannot be started; only a stop
      or a check by hand helps. */
  lemma {:induction false} WedgedMonitorNeverChecks(s: State, e: Event, events: seq<Event>)
    requires Inv(s) && RejectsWhileWanted(s, e) && s.timer == None
    requires forall i :: 0 <= i < |events| ==> !LeavesWedge(events[i])
    ensures var after := Run(Step(s, e), events);
            && Wedged(after) && after.launched == s.launched
            && after.status.authorityChecks == s.status.authorityChecks
  {
    if events == [] {
      assert s.armed.Keys == {} && e.call == 0;
      assert s.pending[..0] + s.pending[1..] == [];
    } else {
      var n := |events| - 1;
      WedgedMonitorNeverChecks(s, e, events[..n]);
      WedgedStep(Run(Step(s, e), events[..n]), events[n]);
    }
  }

  /** No event that a user could mend a wedged monitor with. */
  predicate Unattended(events: seq<Event>) {
    forall i :: 0 <= i < |events| ==> !LeavesWedge(events[i])
  }

  ghost predicate NeverChecksUnattended(s: State) {
    forall events :: Unattended(events) ==> Run(s, events).status.authorityChecks == s.status.authorityChecks
  }

  /** After such a rejection the monitor never checks again unattended if and only if no timer
      was left; one that was left begins a check when it fires. */
  lemma WedgedExactly(s: State, e: Event)
    requires Inv(s) && RejectsWhileWanted(s, e)
    ensures NeverChecksUnattended(Step(s, e)) <==> s.timer == None
    ensures s.timer == None <==> Wedged(Step(s, e))
  {
    var t := Step(s, e);
    assert e.call == 0 && s.pending[..0] + s.pending[1..] == [];
    if s.timer == None {
      assert s.armed.Keys == {};
      forall events | Unattended(events) ensures Run(t, events).status.authorityChecks == t.status.authorityChecks {
        WedgedMonitorNeverChecks(s, e, events);
      }
    } else {
      var fires := [TimerFires(s.timer.value)];
      assert s.timer.value in s.armed && fires[..0] == [];
      assert Run(t, fires).status.authorityChecks == t.status.authorityChecks + 1;
      assert Unattended(fires);
    }
  }

  lemma RunOne(s: State, events: seq<Event>, i: nat)
    requires i < |events|
    ensures Run(s, events[..i + 1]) == Step(Run(s, events[..i]), events[i])
  {
    assert events[..i + 1][..i] == events[..i];
  }

  /** Every monitor can get there: it is stopped during a run and started again, its new timer
      finds the run still in flight, and then the aborted run rejects. */
  lemma WedgeIsReachable(poll: Number, maxBackoff: Number, generation: nat)
    ensures var s := Init(poll, maxBackoff, generation);
            var events := [Start(0), TimerFires(0), DiscoverySucceeds(0, true, 1), Stop, Start(2), TimerFires(1)];
            && RejectsWhileWanted(Run(s, events), SchedulerRejects(0, 3))
            && Wedged(Run(s, events + [SchedulerRejects(0, 3)]))
  {
    var s := Init(poll, maxBackoff, generation);
    var events := [Start(0), TimerFires(0), DiscoverySucceeds(0, true, 1), Stop, Start(2), TimerFires(1)];
    var rejected := events + [SchedulerRejects(0, 3)];
    assert rejected[..6] == events;
    InvAlways(poll, maxBackoff, generation, events);
    LaunchedInFlight(poll, maxBackoff, generation);
    RestartDuringRun(InFlight(poll, maxBackoff, generation));
    RunToLaunch(s, events);
    RunRestart(s, events);
    WedgedExactly(Run(s, events), SchedulerRejects(0, 3));
  }

  /** A fresh monitor with its first run in flight. */
  function InFlight(poll: Number, maxBackoff: Number, generation: nat): State {
    var s := Init(poll, maxBackoff, generation);
    Step(Step(Step(s, Start(0)), TimerFires(0)), DiscoverySucceeds(0, true, 1))
  }

  lemma RunToLaunch(s: State, events: seq<Event>)
    requires |events| >= 3
    ensures Run(s, events[..3]) == Step(Step(Step(s, events[0]), events[1]), events[2])
  {
    assert events[..0] == [];
    RunOne(s, events, 0);
    RunOne(s, events, 1);
    RunOne(s, events, 2);
  }

  lemma RunRestart(s: State, events: seq<Event>)
    requires |events| == 6
    ensures Run(s, events) == Step(Step(Step(Run(s, events[..3]), events[3]), events[4]), events[5])
  {
    assert events[..6] == events;
    RunOne(s, events, 3);
    RunOne(s, events, 4);
    RunOne(s, events, 5);
  }

  lemma LaunchedInFlight(poll: Number, maxBackoff: Number, generation: nat)
    ensures var t := InFlight(poll, maxBackoff, generation);
            && t.timer == None && t.armed == map[] && t.nextHandle == 1 && t.checkInFlight && |t.pending| == 1
            && Waiting(t, 0) && t.status.activeRun == Some(t.pending[0].runId)
            && t.pending[0].runId in t.registry.controllers
            && t.registry.controllers[t.pending[0].runId] == t.pending[0].controller
  {
  }

  lemma RestartDuringRun(s: State)
    requires s.timer == None && s.armed == map[] && s.nextHandle == 1 && s.checkInFlight && |s.pending| == 1
    requires Waiting(s, 0) && s.status.activeRun == Some(s.pending[0].runId)
    requires s.pending[0].runId in s.registry.controllers
    requires s.registry.controllers[s.pending[0].runId] == s.pending[0].controller
    ensures var t := Step(Step(Step(s, Stop), Start(2)), TimerFires(1));
            RejectsWhileWanted(t, SchedulerRejects(0, 3)) && t.timer == None
  {
    var stopped := Step(s, Stop);
    assert s.pending[0].controller in stopped.registry.aborted;
    var started := Step(stopped, Start(2));
    assert started.timer == Some(1) && 1 in started.armed;
  }

  /** A rejected run that was not aborted stays displayed as the active run. */
  lemma RejectedRunStaysDisplayed(s: State, now: int)
    requires Inv(s) && Waiting(s, 0)
    ensures var next := Step(s, SchedulerRejects(0, now));
            && next.pending == []
            && (next.status.activeRun == None <==> s.pending[0].controller in s.registry.aborted)
  {
  }

  // ---------- backoff ----------

  function Pow2(n: nat): (p: nat)
    ensures p >= 1
  {
    if n == 0 then 1 else 2 * Pow2(n - 1)
  }

  /** The delay after `n` failed checks in a row. */
  function BackoffAfter(poll: nat, maxBackoff: nat, n: nat): int {
    if n == 0 then 0 else Min(maxBackoff, poll * Pow2(n - 1))
  }

  /** A check that fails, and not because the monitor was told to stop. */
  predicate FailsCheck(s: State, e: Event) {
    && !s.stopRequested
    && (|| (e.DiscoveryFails? && AwaitsDiscovery(s, e.call))
        || (e.SchedulerRejects? && Waiting(s, e.call) && !Aborted(s, e.call)))
  }

  /** A discovery that succeeds, and a start of a monitor that is not running. */
  predicate Resets(s: State, e: Event) {
    (e.DiscoverySucceeds? && AwaitsDiscovery(s, e.call)) || (e.Start? && !s.running)
  }

  /** The failed checks of a run since the last discovery that succeeded or the last start. */
  function FailuresIn(s: State, events: seq<Event>): nat {
    if events == [] then 0
    else
      var n := |events| - 1;
      var before := Run(s, events[..n]);
      if Resets(before, events[n]) then 0
      else FailuresIn(s, events[..n]) + if FailsCheck(before, events[n]) then 1 else 0
  }

  lemma FailuresStep(s: State, e: Event)
    ensures Step(s, e).failures == if Resets(s, e) then 0 else s.failures + if FailsCheck(s, e) then 1 else 0
  {
    match e
    case Start(_) =>
    case Stop =>
    case TimerFires(_) =>
    case CheckNow =>
    case DiscoverySucceeds(_, _, _) =>
    case DiscoveryFails(_, _) =>
    case SchedulerResolves(_, _) =>
    case SchedulerRejects(_, _) =>
    case ExternalAbort(_) =>
  }

  lemma {:induction false} FailuresCounted(s: State, events: seq<Event>)
    requires s.failures == 0
    ensures Run(s, events).failures == FailuresIn(s, events)
  {
    if events != [] {
      FailuresCounted(s, events[..|events| - 1]);
      FailuresStep(Run(s, events[..|events| - 1]), events[|events| - 1]);
    }
  }

  ghost predicate BackoffInv(s: State) {
    && MIN_POLL_INTERVAL_MS <= s.pollIntervalMs && MIN_POLL_INTERVAL_MS <= s.maxBackoffMs
    && s.backoffMs == BackoffAfter(s.pollIntervalMs, s.maxBackoffMs, s.failures)
  }

  lemma BackoffDoubles(poll: nat, maxBackoff: nat, n: nat)
    requires MIN_POLL_INTERVAL_MS <= poll && MIN_POLL_INTERVAL_MS <= maxBackoff
    ensures 0 < BackoffAfter(poll, maxBackoff, n + 1) <= maxBackoff
    ensures n > 0 ==> BackoffAfter(poll, maxBackoff, n + 1) == Min(maxBackoff, 2 * BackoffAfter(poll, maxBackoff, n))
  {
    assert poll * Pow2(n) >= poll by { MulGrows(poll, Pow2(n)); }
    if n > 0 { assert poll * Pow2(n) == 2 * (poll * Pow2(n - 1)); }
  }

  lemma MulGrows(a: nat, b: nat)
    requires b >= 1
    ensures a * b >= a
  {
  }

  lemma BackoffNext(s: State)
    requires BackoffInv(s)
    ensures NextBackoff(s) == BackoffAfter(s.pollIntervalMs, s.maxBackoffMs, s.failures + 1)
  {
    BackoffDoubles(s.pollIntervalMs, s.maxBackoffMs, s.failures);
    if s.failures > 0 { BackoffDoubles(s.pollIntervalMs, s.maxBackoffMs, s.failures - 1); }
    assert s.pollIntervalMs * Pow2(0) == s.pollIntervalMs;
  }

  /** A step keeps the failure count and the delay, resets both, or moves both on. */
  predicate BackoffMoved(s: State, next: State) {
    && next.pollIntervalMs == s.pollIntervalMs && next.maxBackoffMs == s.maxBackoffMs
    && (|| (next.backoffMs == s.backoffMs && next.failures == s.failures)
        || (next.backoffMs == 0 && next.failures == 0)
        || (next.backoffMs == NextBackoff(s) && next.failures == s.failures + 1))
  }

  lemma FailedMoves(s: State, schedulerAborted: bool, call: nat, now: int)
    requires call < |s.pending|
    ensures BackoffMoved(s, Settle(Failed(s, schedulerAborted, now), call))
  {
  }

  lemma BackoffMoves(s: State, e: Event)
    ensures BackoffMoved(s, Step(s, e))
  {
    match e
    case DiscoveryFails(call, now) =>
      if call < |s.pending| { FailedMoves(s, false, call, now); }
    case SchedulerRejects(call, now) =>
      if Waiting(s, call) {
        FailedMoves(EndRun(s, call), s.pending[call].controller in s.registry.aborted, call, now);
      }
    case _ =>
  }

  lemma StepKeepsBackoff(s: State, e: Event)
    requires BackoffInv(s)
    ensures BackoffInv(Step(s, e))
  {
    BackoffMoves(s, e);
    var next := Step(s, e);
    if next.failures == s.failures + 1 { BackoffNext(s); }
  }

  lemma {:induction false} BackoffInvAlways(poll: Number, maxBackoff: Number, generation: nat, events: seq<Event>)
    ensures BackoffInv(Run(Init(poll, maxBackoff, generation), events))
  {
    if events != [] {
      var n := |events| - 1;
      BackoffInvAlways(poll, maxBackoff, generation, events[..n]);
      StepKeepsBackoff(Run(Init(poll, maxBackoff, generation), events[..n]), events[n]);
    }
  }

  /** Over every run the delay is none before a failure, and then the poll interval doubled once
      for each further failed check since the last success or start, up to the maximum. */
  lemma BackoffClosedForm(poll: Number, maxBackoff: Number, generation: nat, events: seq<Event>)
    ensures var first := Init(poll, maxBackoff, generation);
            var failures := FailuresIn(first, events);
            Run(first, events).backoffMs == BackoffAfter(first.pollIntervalMs, first.maxBackoffMs, failures)
  {
    var first := Init(poll, maxBackoff, generation);
    BackoffInvAlways(poll, maxBackoff, generation, events);
    FailuresCounted(first, events);
    ConfigurationStays(first, events);
  }

  lemma {:induction false} ConfigurationStays(s: State, events: seq<Event>)
    ensures Run(s, events).pollIntervalMs == s.pollIntervalMs && Run(s, events).maxBackoffMs == s.maxBackoffMs
  {
    if events != [] {
      ConfigurationStays(s, events[..|events| - 1]);
      BackoffMoves(Run(s, events[..|events| - 1]), events[|events| - 1]);
    }
  }

  /** A failed check of a running monitor arms its timer after the closed-form delay,
      which is never zero and never above the maximum. */
  lemma FailureArmsBackoff(s: State, e: Event, now: int)
    requires Inv(s) && BackoffInv(s) && s.running
    requires || (e == DiscoveryFails(0, now) && |s.pending| > 0 && s.pending[0].Discovering?)
             || (e == SchedulerRejects(0, now) && Waiting(s, 0) && s.pending[0].controller !in s.registry.aborted)
    ensures var next, delay := Step(s, e), BackoffAfter(s.pollIntervalMs, s.maxBackoffMs, s.failures + 1);
            && next.failures == s.failures + 1 && 0 < delay <= s.maxBackoffMs
            && next.timer.Some? && next.armed == map[next.timer.value := now + delay]
  {
    BackoffNext(s);
    BackoffDoubles(s.pollIntervalMs, s.maxBackoffMs, s.failures);
  }

  // ---------- the monitor ----------

  /** The fields of the monitor, the host timers it owns and the registry it shares. */
  class PiNextMonitor {
    const pollIntervalMs: nat
    const maxBackoffMs: nat
    const generation: nat
    const registry: RunRegistry
    var running: bool
    var stopRequested: bool
    var checkInFlight: bool
    var backoffMs: nat
    var timer: Option<Handle>
    var activeController: Option<Controller>
    var status: Status
    var armed: map<Handle, int>
    var pending: seq<Check>
    var nextHandle: Handle
    var nextController: Controller
    ghost var launched: seq<RunId>
    ghost var failures: nat

    constructor (poll: Number, maxBackoff: Number, generation: nat)
      ensures View() == Init(poll, maxBackoff, generation) && fresh(registry)
      ensures !running && !stopRequested && !checkInFlight && backoffMs == 0 && timer.None? && activeController.None?
      ensures status == Status(false, Stopped, None, None, false, 0, 0, 0) && launched == [] && pending == []
    {
      var p := BoundedDelay(poll, DEFAULT_POLL_INTERVAL_MS, MIN_POLL_INTERVAL_MS, MAX_DELAY_MS);
      pollIntervalMs := p;
      maxBackoffMs := BoundedDelay(maxBackoff, DEFAULT_MAX_BACKOFF_MS, p, MAX_DELAY_MS);
      this.generation := generation;
      registry := new RunRegistry();
      running, stopRequested, checkInFlight, backoffMs := false, false, false, 0;
      timer, activeController := None, None;
      status := Status(false, Stopped, None, None, false, 0, 0, 0);
      armed, pending, nextHandle, nextController := map[], [], 0, 0;
      launched, failures := [], 0;
    }

    ghost function View(): State
      reads this, registry
    {
      State(pollIntervalMs, maxBackoffMs, generation, running, stopRequested, checkInFlight, backoffMs,
            timer, activeController, status, armed, pending, nextHandle, nextController,
            registry.View(), launched, failures)
    }

    method Start(now: int)
      modifies this
      ensures View() == StartStep(old(View()), now)
    {
      if running { return; }
      running, stopRequested, backoffMs := true, false, 0;
      failures := 0;
      status := status.(running := true, phase := Monitoring, nextCheckAt := Some(now), failed := false);
      Arm(0, now);
    }

    method Stop()
      modifies this, registry
      ensures View() == StopStep(old(View()))
    {
      stopRequested, running := true, false;
      if timer.Some? {
        armed := armed - {timer.value};
        timer := None;
      }
      if status.activeRun.Some? {
        var _ := registry.AbortRun(status.activeRun.value);
      }
      status := status.(running := false, phase := if checkInFlight then Stopping else Stopped, nextCheckAt := None);
    }

    method Arm(delay: nat, now: int)
      modifies this
      ensures View() == Schedule(old(View()), delay, now)
    {
      if timer.Some? { armed := armed - {timer.value}; }
      status := status.(nextCheckAt := Some(now + delay));
      timer := Some(nextHandle);
      armed := armed[nextHandle := now + delay];
      nextHandle := nextHandle + 1;
    }

    /** The host fires one of its pending timers. */
    method Fire(handle: Handle)
      modifies this
      ensures View() == TimerStep(old(View()), handle)
    {
      if handle !in armed { return; }
      armed := armed - {handle};
      timer := None;
      CheckNow();
    }

    method CheckNow()
      modifies this
      ensures View() == BeginCheck(old(View()))
    {
      if !running || checkInFlight { return; }
      checkInFlight := true;
      pending := pending + [Discovering];
      status := status.(phase := Monitoring, authorityChecks := status.authorityChecks + 1);
    }

    method DiscoverySucceeded(call: nat, candidate: bool, now: int)
      requires call < |pending|
      modifies this, registry
      ensures View() == DiscoverySucceedsStep(old(View()), call, candidate, now)
      ensures launched == old(launched) + if candidate && !old(stopRequested)
                                          then [RunId(generation, old(status.wakeUps) + 1)] else []
      ensures backoffMs == 0 && failures == 0
    {
      backoffMs := 0;
      failures := 0;
      status := status.(phase := Monitoring, failed := false);
      if candidate && !stopRequested {
        LaunchScheduler(call);
      } else {
        EndTry(now);
        EndCall(call);
      }
    }

    method LaunchScheduler(call: nat)
      requires call < |pending|
      modifies this, registry
      ensures View() == Launch(old(View()), call)
    {
      var wake := status.wakeUps + 1;
      var runId, controller := RunId(generation, wake), nextController;
      nextController := controller + 1;
      registry.Register(runId, controller);
      activeController := Some(controller);
      launched := launched + [runId];
      status := status.(phase := Working, activeRun := Some(runId), wakeUps := wake,
                        schedulerLaunches := status.schedulerLaunches + 1);
      pending := pending[call := Scheduling(runId, controller)];
    }

    method EndTry(now: int)
      modifies this
      ensures View() == PollOrStop(old(View()), now)
    {
      if running && !stopRequested {
        Arm(pollIntervalMs, now);
      } else {
        status := status.(phase := Stopped, running := false, nextCheckAt := None);
      }
    }

    method EndCall(call: nat)
      requires call < |pending|
      modifies this
      ensures View() == Settle(old(View()), call)
    {
      checkInFlight := false;
      pending := pending[..call] + pending[call + 1..];
      if !running && status.phase == Stopping { status := status.(phase := Stopped); }
    }

    method Catch(schedulerAborted: bool, now: int)
      modifies this
      ensures View() == Failed(old(View()), schedulerAborted, now)
    {
      if schedulerAborted || stopRequested {
        status := status.(phase := Stopped, running := false, activeRun := None, nextCheckAt := None, failed := false);
        return;
      }
      var next := if backoffMs != 0 then Min(maxBackoffMs, backoffMs * 2)
                  else Min(maxBackoffMs, Max(pollIntervalMs, MIN_POLL_INTERVAL_MS));
      backoffMs := next;
      failures := failures + 1;
      status := status.(phase := if running then Backoff else Stopped, failed := true);
      if running && !stopRequested { Arm(next, now); }
    }

    method DiscoveryFailed(call: nat, now: int)
      requires call < |pending|
      modifies this
      ensures View() == Settle(Failed(old(View()), false, now), call)
    {
      Catch(false, now);
      EndCall(call);
    }

    /** The inner `finally` of a scheduler call; answers whether the call was aborted. */
    method RunEnded(call: nat) returns (aborted: bool)
      requires Waiting(View(), call)
      modifies this, registry
      ensures View() == EndRun(old(View()), call)
      ensures aborted == (pending[call].controller in registry.aborted)
    {
      var runId, controller := pending[call].runId, pending[call].controller;
      aborted := controller in registry.aborted;
      registry.Unregister(runId, controller);
      if activeController == Some(controller) { activeController := None; }
    }

    method SchedulerResolved(call: nat, now: int)
      requires Waiting(View(), call)
      modifies this, registry
      ensures View() == ResolvesStep(old(View()), call, now)
    {
      var aborted := RunEnded(call);
      if aborted {
        stopRequested, running := true, false;
        status := status.(phase := Stopped, running := false, activeRun := None, nextCheckAt := None);
      } else {
        status := status.(phase := Monitoring, activeRun := None);
      }
      EndTry(now);
      EndCall(call);
    }

    method SchedulerRejected(call: nat, now: int)
      requires Waiting(View(), call)
      modifies this, registry
      ensures View() == RejectsStep(old(View()), call, now)
    {
      var aborted := RunEnded(call);
      Catch(aborted, now);
      EndCall(call);
    }
  }
}
