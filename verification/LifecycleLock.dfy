/** The bootstrap lifecycle lock: a directory with an owner record, contended by processes. */
module LifecycleLock {

  /** The lock directory: absent, made but without its record, or recording an owner. */
  datatype Directory = Absent | Unrecorded | RecordOf(owner: nat)

  datatype Code = ActiveOwner | AmbiguousOwner | LockFailed

  /** Where a contender stands in its acquisition. */
  datatype Place =
    | Trying                   // about to make the directory
    | Created                  // made it, about to write the record
    | Reading                  // found it taken, about to read the record
    | Checking(owner: nat)     // read the record, about to probe its owner
    | TakingOver(owner: nat)   // saw the owner dead, about to remove the directory
    | Holding
    | Released
    | Refused(code: Code)

  datatype Process = Process(alive: bool, place: Place)

  datatype State = State(dir: Directory, processes: map<nat, Process>)

  /** One atomic action of one contender; `answer` is what probing the owner's process says. */
  datatype Event =
    | MakeDirectory(p: nat)
    | WriteRecord(p: nat)
    | ReadRecord(p: nat)
    | Probe(p: nat, unknown: bool)
    | Remove(p: nat)
    | Release(p: nat)
    | OperationFails(p: nat)
    | BeginAgain(p: nat)
    | Crash(p: nat)

  predicate Alive(s: State, p: nat) {
    p in s.processes && s.processes[p].alive
  }

  predicate At(s: State, p: nat, place: Place) {
    Alive(s, p) && s.processes[p].place == place
  }

  function Move(s: State, p: nat, place: Place): State
    requires Alive(s, p)
  {
    s.(processes := s.processes[p := Process(true, place)])
  }

  /** What a live contender does next; an action that is not its next one changes nothing. */
  function Act(s: State, e: Event): State
    requires Alive(s, e.p)
  {
    var p, place := e.p, s.processes[e.p].place;
    match e
    case MakeDirectory(_) =>
      if place != Trying then s
      else if s.dir == Absent then Move(s, p, Created).(dir := Unrecorded)
      else Move(s, p, Reading)
    case WriteRecord(_) =>
      if place != Created then s
      else if s.dir == Absent then Move(s, p, Refused(LockFailed))
      else if s.dir == Unrecorded then Move(s, p, Holding).(dir := RecordOf(p))
      else Move(s, p, Reading)
    case ReadRecord(_) =>
      if place != Reading then s
      else if s.dir.RecordOf? then Move(s, p, Checking(s.dir.owner))
      else Move(s, p, Refused(AmbiguousOwner))
    case Probe(_, unknown) =>
      if !place.Checking? then s
      else if unknown then Move(s, p, Refused(AmbiguousOwner))
      else if Alive(s, place.owner) then Move(s, p, Refused(ActiveOwner))
      else Move(s, p, TakingOver(place.owner))
    case Remove(_) =>
      if !place.TakingOver? then s else Move(s, p, Trying).(dir := Absent)
    case Release(_) =>
      if place != Holding then s else Move(s, p, Released).(dir := Absent)
    case OperationFails(_) =>
      if place == Trying || place == Created then Move(s, p, Refused(LockFailed)) else s
    case BeginAgain(_) =>
      if place == Released || place.Refused? then Move(s, p, Trying) else s
    case Crash(_) =>
      s.(processes := s.processes[p := Process(false, place)])
  }

  function Step(s: State, e: Event): State {
    if Alive(s, e.p) then Act(s, e) else s
  }

  function Run(s: State, events: seq<Event>): State {
    if events == [] then s else Step(Run(s, events[..|events| - 1]), events[|events| - 1])
  }

  // ---------- mutual exclusion ----------

  /** Between making the lock directory and releasing it. */
  predicate Inside(s: State, p: nat) {
    At(s, p, Created) || At(s, p, Holding)
  }

  ghost predicate MutualExclusion(s: State) {
    forall p, q :: Inside(s, p) && Inside(s, q) ==> p == q
  }

  /** The directory shows who is inside. */
  predicate Shown(s: State, p: nat) {
    if At(s, p, Created) then s.dir == Unrecorded else s.dir == RecordOf(p)
  }

  ghost predicate Inv(s: State) {
    && MutualExclusion(s)
    && (forall p :: Inside(s, p) ==> Shown(s, p))
    && (forall p :: Alive(s, p) && s.processes[p].place.TakingOver? ==> !Alive(s, s.processes[p].place.owner))
  }

  /** Anything may be left over from earlier runs, but nobody has begun. */
  ghost predicate Initial(s: State) {
    forall p :: p in s.processes ==> s.processes[p].place == Trying
  }

  predicate Takeover(s: State, e: Event) {
    e.Remove? && Alive(s, e.p) && s.processes[e.p].place.TakingOver?
  }

  /** A takeover does not remove the directory of a live contender. */
  ghost predicate Harmless(s: State, e: Event) {
    Takeover(s, e) ==> forall p :: !Inside(s, p)
  }

  /** A takeover removes the record that was read, or nothing. */
  predicate Faithful(s: State, e: Event) {
    Takeover(s, e) ==> s.dir == RecordOf(s.processes[e.p].place.owner) || s.dir == Absent
  }

  lemma FaithfulIsHarmless(s: State, e: Event)
    requires Inv(s) && Faithful(s, e)
    ensures Harmless(s, e)
  {
    if Takeover(s, e) {
      forall p ensures !Inside(s, p) {
        assert Inside(s, p) ==> Shown(s, p);
      }
    }
  }

  /** One step keeps the invariant exactly when it is no takeover that removes the directory
      of a live contender. */
  lemma InvKeptExactly(s: State, e: Event)
    requires Inv(s)
    ensures Inv(Step(s, e)) <==> Harmless(s, e)
  {
    if Alive(s, e.p) {
      if Takeover(s, e) {
        RemovalKeepsExactly(s, e);
      } else {
        OthersKeep(s, e);
      }
    }
  }

  lemma RemovalKeepsExactly(s: State, e: Event)
    requires Inv(s) && Takeover(s, e)
    ensures Inv(Step(s, e)) <==> forall p :: !Inside(s, p)
  {
    var t := Step(s, e);
    forall p ensures Inside(t, p) <==> Inside(s, p) {}
    if q :| Inside(s, q) {
      assert Inside(t, q) && !Shown(t, q);
    }
  }

  lemma OthersKeep(s: State, e: Event)
    requires Inv(s) && Alive(s, e.p) && !Takeover(s, e)
    ensures Inv(Step(s, e))
  {
    var t := Step(s, e);
    forall p | p != e.p ensures Inside(t, p) <==> Inside(s, p) {}
    if Inside(s, e.p) {
      assert Shown(s, e.p);
    }
    forall p | Inside(t, p) ensures Shown(t, p) && (Inside(t, e.p) ==> p == e.p) {
      assert p != e.p ==> Inside(s, p) && Shown(s, p);
    }
  }

  ghost predicate AllFaithful(s: State, events: seq<Event>) {
    forall i :: 0 <= i < |events| ==> Faithful(Run(s, events[..i]), events[i])
  }

  lemma {:induction false} FaithfulRunsKeepInv(s: State, events: seq<Event>)
    requires Initial(s) && AllFaithful(s, events)
    ensures Inv(Run(s, events))
  {
    if events == [] {
    } else {
      var before, last := events[..|events| - 1], events[|events| - 1];
      forall i | 0 <= i < |before| ensures Faithful(Run(s, before[..i]), before[i]) {
        assert before[..i] == events[..i];
      }
      FaithfulRunsKeepInv(s, before);
      FaithfulIsHarmless(Run(s, before), last);
      InvKeptExactly(Run(s, before), last);
    }
  }

  /** In every run, with crashes anywhere, in which each takeover removes the very record that
      its contender read, at most one live contender is inside. */
  lemma FaithfulRunsExclude(s: State, events: seq<Event>)
    requires Initial(s) && AllFaithful(s, events)
    ensures MutualExclusion(Run(s, events))
  {
    FaithfulRunsKeepInv(s, events);
  }

  ghost predicate InvThroughout(s: State, events: seq<Event>, n: nat)
    requires n <= |events|
  {
    forall k :: 0 <= k <= n ==> Inv(Run(s, events[..k]))
  }

  ghost predicate AllHarmless(s: State, events: seq<Event>, n: nat)
    requires n <= |events|
  {
    forall k :: 0 <= k < n ==> Harmless(Run(s, events[..k]), events[k])
  }

  /** Over whole runs: at most one live contender is inside, shown by the directory, all along
      if and only if no takeover in the run removes the directory of a live one. */
  lemma RunsExcludeExactly(s: State, events: seq<Event>)
    requires Initial(s)
    ensures InvThroughout(s, events, |events|) <==> AllHarmless(s, events, |events|)
  {
    KeptUpTo(s, events, |events|);
  }

  lemma {:induction false} KeptUpTo(s: State, events: seq<Event>, n: nat)
    requires Initial(s) && n <= |events|
    ensures InvThroughout(s, events, n) <==> AllHarmless(s, events, n)
  {
    if n == 0 {
      assert Run(s, events[..0]) == s;
    } else {
      KeptUpTo(s, events, n - 1);
      InvOneMore(s, events, n - 1);
      HarmlessOneMore(s, events, n - 1);
      if Inv(Run(s, events[..n - 1])) { InvKeptExactly(Run(s, events[..n - 1]), events[n - 1]); }
    }
  }

  lemma InvOneMore(s: State, events: seq<Event>, n: nat)
    requires n < |events|
    ensures InvThroughout(s, events, n + 1)
            <==> InvThroughout(s, events, n) && Inv(Step(Run(s, events[..n]), events[n]))
    ensures InvThroughout(s, events, n) ==> Inv(Run(s, events[..n]))
  {
    RunOne(s, events, n);
  }

  lemma HarmlessOneMore(s: State, events: seq<Event>, n: nat)
    requires n < |events|
    ensures AllHarmless(s, events, n + 1) <==> AllHarmless(s, events, n) && Harmless(Run(s, events[..n]), events[n])
  {
  }

  /** Runs without any removal need no condition. */
  lemma RunsWithoutTakeoverExclude(s: State, events: seq<Event>)
    requires Initial(s) && forall e :: e in events ==> !e.Remove?
    ensures MutualExclusion(Run(s, events))
  {
    FaithfulRunsExclude(s, events);
  }

  /** A takeover that is not harmless lets its contender in beside a live one: its next
      action makes a second directory. */
  lemma HarmfulTakeoverBreaksExclusion(s: State, e: Event)
    requires Inv(s) && !Harmless(s, e)
    ensures !MutualExclusion(Run(s, [e, MakeDirectory(e.p)]))
  {
    var q :| Inside(s, q);
    var t := Step(s, e);
    assert [e, MakeDirectory(e.p)][..1] == [e] && [e][..0] == [];
    assert Run(s, [e]) == t;
    var u := Step(t, MakeDirectory(e.p));
    assert Run(s, [e, MakeDirectory(e.p)]) == u;
    assert Inside(u, q) && Inside(u, e.p);
  }

  /** One takes over and holds the lock, then the other removes that lock and makes its own. */
  function Race(first: nat, second: nat): seq<Event> {
    [Probe(first, false), Probe(second, false), Remove(first), MakeDirectory(first), WriteRecord(first),
     Remove(second), MakeDirectory(second)]
  }

  /** Two contenders that read the record of the same dead owner end up inside together. */
  lemma TakeoverRace(s: State, first: nat, second: nat, dead: nat)
    requires s.dir == RecordOf(dead) && !Alive(s, dead)
    requires first != second && At(s, first, Checking(dead)) && At(s, second, Checking(dead))
    ensures !MutualExclusion(Run(s, Race(first, second)))
  {
    var events := Race(first, second);
    var s1 := Step(s, events[0]);
    var s2 := Step(s1, events[1]);
    var s3 := Step(s2, events[2]);
    var s4 := Step(s3, events[3]);
    var s5 := Step(s4, events[4]);
    var s6 := Step(s5, events[5]);
    var s7 := Step(s6, events[6]);
    RunSeven(s, events);
    assert At(s5, first, Holding) && At(s5, second, TakingOver(dead));
    assert Inside(s7, first) && Inside(s7, second);
  }

  /** An owner takes the free lock and dies; two contenders find the lock taken and read its
      record. */
  function DeadOwnerRead(first: nat, second: nat, dead: nat): seq<Event> {
    [MakeDirectory(dead), WriteRecord(dead), Crash(dead), MakeDirectory(first), ReadRecord(first),
     MakeDirectory(second), ReadRecord(second)]
  }

  /** From a free lock that any three contenders are about to take, a run gets there. */
  lemma TakeoverRaceIsReachable(s: State, first: nat, second: nat, dead: nat)
    requires Initial(s) && s.dir == Absent && Alive(s, first) && Alive(s, second) && Alive(s, dead)
    requires first != second && first != dead && second != dead
    ensures !MutualExclusion(Run(s, DeadOwnerRead(first, second, dead) + Race(first, second)))
  {
    var events := DeadOwnerRead(first, second, dead);
    var s2 := Step(Step(s, events[0]), events[1]);
    assert At(s2, dead, Holding) && s2.dir == RecordOf(dead);
    var s3 := Step(s2, events[2]);
    assert At(s3, first, Trying) && At(s3, second, Trying) && !Alive(s3, dead);
    var s5 := Step(Step(s3, events[3]), events[4]);
    assert At(s5, first, Checking(dead)) && At(s5, second, Trying) && s5.dir == RecordOf(dead);
    RunSeven(s, events);
    RunJoins(s, events, Race(first, second));
    TakeoverRace(Run(s, events), first, second, dead);
  }

  lemma {:induction false} RunJoins(s: State, a: seq<Event>, b: seq<Event>)
    ensures Run(s, a + b) == Run(Run(s, a), b)
  {
    if b == [] {
      assert a + b == a;
    } else {
      var n := |b| - 1;
      assert (a + b)[..|a| + n] == a + b[..n];
      RunJoins(s, a, b[..n]);
    }
  }

  lemma RunOne(s: State, events: seq<Event>, i: nat)
    requires i < |events|
    ensures Run(s, events[..i + 1]) == Step(Run(s, events[..i]), events[i])
  {
    assert events[..i + 1][..i] == events[..i];
  }

  lemma RunSeven(s: State, events: seq<Event>)
    requires |events| == 7
    ensures Run(s, events)
            == Step(Step(Step(Step(Step(Step(Step(s,
                 events[0]), events[1]), events[2]), events[3]), events[4]), events[5]), events[6])
  {
    assert events[..0] == [] && events[..7] == events;
    RunOne(s, events, 0);
    RunOne(s, events, 1);
    RunOne(s, events, 2);
    RunOne(s, events, 3);
    RunOne(s, events, 4);
    RunOne(s, events, 5);
    RunOne(s, events, 6);
  }

  // ---------- a directory without a record ----------

  /** About to take over, or about to find another owner dead. */
  predicate MayTakeOver(s: State, p: nat) {
    Alive(s, p) &&
    var place := s.processes[p].place;
    place.TakingOver? || (place.Checking? && place.owner != p)
  }

  /** The directory stands without a record, nobody is inside, and nobody who read an earlier
      record can still take over. */
  ghost predicate Wedged(s: State) {
    s.dir == Unrecorded && forall p :: !Inside(s, p) && !MayTakeOver(s, p)
  }

  /** Then the lock can never be acquired again, whatever happens. */
  lemma {:induction false} WedgedForever(s: State, events: seq<Event>)
    requires Wedged(s)
    ensures Wedged(Run(s, events))
  {
    if events != [] {
      WedgedForever(s, events[..|events| - 1]);
      WedgedStep(Run(s, events[..|events| - 1]), events[|events| - 1]);
    }
  }

  lemma WedgedStep(s: State, e: Event)
    requires Wedged(s)
    ensures Wedged(Step(s, e))
  {
    if Alive(s, e.p) {
      var t := Step(s, e);
      assert !Inside(s, e.p) && !MayTakeOver(s, e.p);
      forall p ensures !Inside(t, p) && !MayTakeOver(t, p) {
        if p != e.p { OthersLeave(s, e, p); }
        assert !Inside(s, p) && !MayTakeOver(s, p);
      }
    }
  }

  /** A contender that may take over does, if the owner it read of is dead by then. */
  lemma MayAcquire(s: State, p: nat) returns (events: seq<Event>)
    requires MayTakeOver(s, p)
    ensures Inside(Run(s, events), p)
  {
    var place := s.processes[p].place;
    if place.TakingOver? {
      events := [Remove(p), MakeDirectory(p), WriteRecord(p)];
      TakesOver(s, p, place.owner);
      RunThree(s, events);
    } else {
      events := [Crash(place.owner), Probe(p, false), Remove(p), MakeDirectory(p), WriteRecord(p)];
      var t := Step(Step(s, events[0]), events[1]);
      OthersLeave(s, events[0], p);
      assert At(t, p, TakingOver(place.owner));
      TakesOver(t, p, place.owner);
      RunFive(s, events);
    }
  }

  ghost predicate NeverAcquired(s: State) {
    forall events, p :: !Inside(Run(s, events), p)
  }

  /** Once the directory stands without a record and nobody is inside, the lock is lost for good
      if and only if no contender that read an earlier record can still take over. */
  lemma LostExactly(s: State)
    requires s.dir == Unrecorded && forall p :: !Inside(s, p)
    ensures NeverAcquired(s) <==> Wedged(s)
  {
    if Wedged(s) {
      forall events, p ensures !Inside(Run(s, events), p) {
        WedgedForever(s, events);
      }
    } else {
      var p :| MayTakeOver(s, p);
      var events := MayAcquire(s, p);
    }
  }

  /** Whoever made the directory fails before its record is written, by a crash or by a failed
      write: the lock is then lost if and only if nobody can still take over. */
  lemma FailureBeforeRecordExactly(s: State, p: nat, crashed: bool)
    requires Inv(s) && At(s, p, Created)
    ensures var t := Step(s, if crashed then Crash(p) else OperationFails(p));
            NeverAcquired(t) <==> forall q :: q != p ==> !MayTakeOver(s, q)
  {
    var e := if crashed then Crash(p) else OperationFails(p);
    var t := Step(s, e);
    FailureLeavesDirectory(s, p, crashed);
    LostExactly(t);
    forall q ensures MayTakeOver(t, q) <==> q != p && MayTakeOver(s, q) {
      if q != p { OthersLeave(s, e, q); }
    }
  }

  lemma FailureLeavesDirectory(s: State, p: nat, crashed: bool)
    requires Inv(s) && At(s, p, Created)
    ensures var t := Step(s, if crashed then Crash(p) else OperationFails(p));
            t.dir == Unrecorded && forall q :: !Inside(t, q)
  {
    var e := if crashed then Crash(p) else OperationFails(p);
    assert Inside(s, p) && Shown(s, p);
    forall q ensures !Inside(Step(s, e), q) {
      if q != p { OthersLeave(s, e, q); }
      assert Inside(s, q) ==> q == p;
    }
  }

  /** A contender on its own reaches either failure: the lock is lost with nobody else there. */
  lemma LoneFailureWedges(p: nat, crashed: bool)
    ensures var s := State(Absent, map[p := Process(true, Trying)]);
            Wedged(Run(s, [MakeDirectory(p), if crashed then Crash(p) else OperationFails(p)]))
  {
    var s := State(Absent, map[p := Process(true, Trying)]);
    var e := if crashed then Crash(p) else OperationFails(p);
    RunTwo(s, [MakeDirectory(p), e]);
    var t := Step(s, MakeDirectory(p));
    assert At(t, p, Created) && t.dir == Unrecorded;
  }

  lemma ReachesTakeover(s: State, p: nat, dead: nat)
    requires s.dir == RecordOf(dead) && !Alive(s, dead) && At(s, p, Trying)
    ensures var t := Step(Step(Step(s, MakeDirectory(p)), ReadRecord(p)), Probe(p, false));
            At(t, p, TakingOver(dead))
  {
    assert Step(s, MakeDirectory(p)) == Move(s, p, Reading);
  }

  lemma TakesOver(s: State, p: nat, dead: nat)
    requires At(s, p, TakingOver(dead))
    ensures var t := Step(Step(Step(s, Remove(p)), MakeDirectory(p)), WriteRecord(p));
            At(t, p, Holding) && t.dir == RecordOf(p)
  {
    assert Step(s, Remove(p)) == Move(s, p, Trying).(dir := Absent);
  }

  /** A process that dies while holding does not: one contender on its own takes over. */
  lemma CrashWhileHoldingRecovers(s: State, p: nat, dead: nat)
    requires s.dir == RecordOf(dead) && !Alive(s, dead) && At(s, p, Trying)
    ensures var t := Run(s, [MakeDirectory(p), ReadRecord(p), Probe(p, false), Remove(p),
                             MakeDirectory(p), WriteRecord(p)]);
            At(t, p, Holding) && t.dir == RecordOf(p)
  {
    ReachesTakeover(s, p, dead);
    TakesOver(Step(Step(Step(s, MakeDirectory(p)), ReadRecord(p)), Probe(p, false)), p, dead);
    RunSix(s, [MakeDirectory(p), ReadRecord(p), Probe(p, false), Remove(p), MakeDirectory(p), WriteRecord(p)]);
  }

  lemma RunTwo(s: State, events: seq<Event>)
    requires |events| == 2
    ensures Run(s, events) == Step(Step(s, events[0]), events[1])
  {
    assert events[..0] == [] && events[..2] == events;
    RunOne(s, events, 0);
    RunOne(s, events, 1);
  }

  lemma RunThree(s: State, events: seq<Event>)
    requires |events| == 3
    ensures Run(s, events) == Step(Step(Step(s, events[0]), events[1]), events[2])
  {
    assert events[..0] == [] && events[..3] == events;
    RunOne(s, events, 0);
    RunOne(s, events, 1);
    RunOne(s, events, 2);
  }

  lemma RunFive(s: State, events: seq<Event>)
    requires |events| == 5
    ensures Run(s, events) == Step(Step(Step(Step(Step(s, events[0]), events[1]), events[2]), events[3]), events[4])
  {
    assert events[..0] == [] && events[..5] == events;
    RunOne(s, events, 0);
    RunOne(s, events, 1);
    RunOne(s, events, 2);
    RunOne(s, events, 3);
    RunOne(s, events, 4);
  }

  lemma RunSix(s: State, events: seq<Event>)
    requires |events| == 6
    ensures Run(s, events)
            == Step(Step(Step(Step(Step(Step(s, events[0]), events[1]), events[2]), events[3]), events[4]), events[5])
  {
    assert events[..0] == [] && events[..6] == events;
    RunOne(s, events, 0);
    RunOne(s, events, 1);
    RunOne(s, events, 2);
    RunOne(s, events, 3);
    RunOne(s, events, 4);
    RunOne(s, events, 5);
  }

  // ---------- one contender's acquisition ----------

  datatype Acquisition = Acquired | NotAcquired(code: Code)

  /** Another contender's action leaves this one where it is. */
  lemma OthersLeave(s: State, e: Event, p: nat)
    requires e.p != p
    ensures (p in Step(s, e).processes) == (p in s.processes)
    ensures p in s.processes ==> Step(s, e).processes[p] == s.processes[p]
  {
  }

  /** No event is an action of the contender. */
  predicate Foreign(events: seq<Event>, p: nat) {
    forall i :: 0 <= i < |events| ==> events[i].p != p
  }

  ghost predicate AllForeign(schedule: seq<seq<Event>>, p: nat) {
    forall i :: 0 <= i < |schedule| ==> Foreign(schedule[i], p)
  }

  /** What the others did, in order. */
  function OthersIn(log: seq<Event>, p: nat): seq<Event> {
    if log == [] then []
    else
      var front, last := OthersIn(log[..|log| - 1], p), log[|log| - 1];
      if last.p == p then front else front + [last]
  }

  function Flat(schedule: seq<seq<Event>>): seq<Event> {
    if schedule == [] then [] else Flat(schedule[..|schedule| - 1]) + schedule[|schedule| - 1]
  }

  lemma OthersInAppend(log: seq<Event>, e: Event, p: nat)
    ensures OthersIn(log + [e], p) == if e.p == p then OthersIn(log, p) else OthersIn(log, p) + [e]
  {
    assert (log + [e])[..|log|] == log;
  }

  lemma FlatNext(schedule: seq<seq<Event>>, turn: nat)
    requires turn < |schedule|
    ensures Flat(schedule[..turn + 1]) == Flat(schedule[..turn]) + schedule[turn]
  {
    assert schedule[..turn + 1][..turn] == schedule[..turn];
  }

  /** What an attempt comes to when nobody else acts meanwhile; `unknown` is the answer to a
      probe. */
  function Undisturbed(s: State, unknown: bool): Acquisition {
    match s.dir
    case Absent => Acquired
    case Unrecorded => NotAcquired(AmbiguousOwner)
    case RecordOf(owner) =>
      if unknown then NotAcquired(AmbiguousOwner)
      else if Alive(s, owner) then NotAcquired(ActiveOwner)
      else Acquired
  }

  /** What making the directory and writing the record come to. */
  lemma MadeAndWritten(s: State, p: nat, unknown: bool)
    requires At(s, p, Trying)
    ensures var t := Step(s, MakeDirectory(p));
            if s.dir == Absent then
              && At(t, p, Created) && t.dir == Unrecorded && At(Step(t, WriteRecord(p)), p, Holding)
              && Undisturbed(s, unknown) == Acquired
            else At(t, p, Reading) && t.dir == s.dir && Undisturbed(t, unknown) == Undisturbed(s, unknown)
  {
  }

  /** What reading a taken lock and probing its owner come to. */
  lemma ReadAndProbed(s: State, p: nat, unknown: bool)
    requires At(s, p, Reading) && s.dir != Absent
    ensures var t := Step(s, ReadRecord(p));
            var u := Step(t, Probe(p, unknown));
            Alive(t, p) && Alive(u, p)
            && if t.processes[p].place.Refused? then Undisturbed(s, unknown) == NotAcquired(AmbiguousOwner)
               else if u.processes[p].place.Refused? then
                 Undisturbed(s, unknown) == NotAcquired(u.processes[p].place.code)
               else Undisturbed(s, unknown) == Acquired
  {
  }

  /** An action other than a crash leaves its contender alive. */
  lemma OwnLives(s: State, e: Event)
    requires Alive(s, e.p) && !e.Crash?
    ensures Alive(Step(s, e), e.p)
  {
  }

  /** The lock as one contender meets it. Others act between its file operations, as the
      schedule says; an unknown answer to a probe is the schedule's as well. */
  class Contender {
    const p: nat
    const schedule: seq<seq<Event>>
    const unknown: nat -> bool
    var state: State
    var turn: nat
    var log: seq<Event>     // every action so far, in order
    var released: bool

    /** A file operation that the acquisition or the release performs. */
    predicate Own(e: Event, i: nat) {
      || e.MakeDirectory? || e.WriteRecord? || e.ReadRecord? || e.Remove? || e.Release?
      || (e.Probe? && e.unknown == unknown(i))
    }

    ghost predicate Played()
      reads this
    {
      forall i :: 0 <= i < |log| && log[i].p == p ==> Own(log[i], i)
    }

    /** The log is a run of the protocol in which this contender performs its own operations and
        the others act as scheduled so far. */
    ghost predicate Valid(first: State)
      reads this
    {
      && state == Run(first, log) && Alive(state, p) && AllForeign(schedule, p)
      && Played() && turn <= |schedule| && OthersIn(log, p) == Flat(schedule[..turn])
    }

    constructor (p: nat, schedule: seq<seq<Event>>, unknown: nat -> bool, state: State)
      requires At(state, p, Trying) && AllForeign(schedule, p)
      ensures Valid(state) && this.state == state && log == [] && this.p == p && !released
    {
      this.p, this.schedule, this.unknown := p, schedule, unknown;
      this.state, this.turn, this.log, this.released := state, 0, [], false;
    }

    function Left(): nat
      reads this
    {
      if turn < |schedule| then |schedule| - turn else 0
    }

    /** One file operation of this contender. */
    method Do(ghost first: State, e: Event)
      requires Valid(first) && e.p == p && Own(e, |log|)
      modifies this`state, this`log
      ensures Valid(first) && state == Step(old(state), e) && log == old(log) + [e]
    {
      RunAppend(first, log, e);
      OthersInAppend(log, e, p);
      OwnLives(state, e);
      state, log := Step(state, e), log + [e];
    }

    /** One action of another contender. */
    method Interpose(ghost first: State, e: Event)
      requires state == Run(first, log) && Alive(state, p) && Played() && e.p != p
      modifies this`state, this`log
      ensures state == Run(first, log) && Alive(state, p) && Played()
      ensures log == old(log) + [e] && state == Step(old(state), e)
      ensures state.processes[p] == old(state.processes[p]) && OthersIn(log, p) == OthersIn(old(log), p) + [e]
    {
      OthersLeave(state, e, p);
      RunAppend(first, log, e);
      OthersInAppend(log, e, p);
      state, log := Step(state, e), log + [e];
    }

    /** Whatever the others do before the next operation. */
    method Others(ghost first: State)
      requires Valid(first)
      modifies this`state, this`log, this`turn
      ensures Valid(first) && state.processes[p] == old(state.processes[p]) && old(log) <= log
      ensures old(Left()) > 0 ==> Left() < old(Left())
      ensures old(Left()) == 0 ==> Left() == 0 && state == old(state) && log == old(log)
    {
      if turn < |schedule| {
        var events := schedule[turn];
        for i := 0 to |events|
          invariant state == Run(first, log) && Alive(state, p) && Played() && old(log) <= log
          invariant turn == old(turn) && state.processes[p] == old(state.processes[p])
          invariant OthersIn(log, p) == Flat(schedule[..turn]) + events[..i]
        {
          Interpose(first, events[i]);
          assert events[..i + 1] == events[..i] + [events[i]];
        }
        FlatNext(schedule, turn);
        turn := turn + 1;
      }
    }

    /** `mkdir`: made, or found taken. */
    method TryMake(ghost first: State)
      requires Valid(first) && At(state, p, Trying)
      modifies this`state, this`log, this`turn
      ensures Valid(first) && old(log) <= log
      ensures At(state, p, Created) || At(state, p, Reading)
      ensures old(Left()) > 0 ==> Left() < old(Left())
      ensures old(Left()) == 0 ==>
                state == Step(old(state), MakeDirectory(p)) && log == old(log) + [MakeDirectory(p)] && Left() == 0
    {
      Others(first);
      Do(first, MakeDirectory(p));
    }

    /** `writeFile` that must not overwrite: written, found taken, or found no directory. */
    method TryWrite(ghost first: State)
      requires Valid(first) && At(state, p, Created)
      modifies this`state, this`log, this`turn
      ensures Valid(first) && old(log) <= log && Left() <= old(Left())
      ensures At(state, p, Holding) || At(state, p, Reading) || At(state, p, Refused(LockFailed))
      ensures old(Left()) == 0 ==>
                state == Step(old(state), WriteRecord(p)) && log == old(log) + [WriteRecord(p)] && Left() == 0
    {
      Others(first);
      Do(first, WriteRecord(p));
    }

    method TryRead(ghost first: State)
      requires Valid(first) && At(state, p, Reading)
      modifies this`state, this`log, this`turn
      ensures Valid(first) && old(log) <= log && Left() <= old(Left())
      ensures At(state, p, Refused(AmbiguousOwner)) || state.processes[p].place.Checking?
      ensures old(Left()) == 0 ==>
                state == Step(old(state), ReadRecord(p)) && log == old(log) + [ReadRecord(p)] && Left() == 0
    {
      Others(first);
      Do(first, ReadRecord(p));
    }

    method TryProbe(ghost first: State)
      requires Valid(first) && state.processes[p].place.Checking?
      modifies this`state, this`log, this`turn
      ensures Valid(first) && old(log) <= log && Left() <= old(Left())
      ensures state.processes[p].place.Refused? || state.processes[p].place.TakingOver?
      ensures old(Left()) == 0 ==>
                var e := Probe(p, unknown(|old(log)|));
                state == Step(old(state), e) && log == old(log) + [e] && Left() == 0
    {
      Others(first);
      Do(first, Probe(p, unknown(|log|)));
    }

    method TakeOver(ghost first: State)
      requires Valid(first) && state.processes[p].place.TakingOver?
      modifies this`state, this`log, this`turn
      ensures Valid(first) && old(log) <= log && Left() <= old(Left())
      ensures At(state, p, Trying) && state.dir == Absent
      ensures old(Left()) == 0 ==>
                state == Step(old(state), Remove(p)) && log == old(log) + [Remove(p)] && Left() == 0
    {
      Others(first);
      Do(first, Remove(p));
    }

    /** Acquires the lock or says why not. Whatever finitely many actions the others interpose,
        the loop ends, and what happened is a run of the protocol. When the others are done, the
        directory alone decides: a free lock and one whose owner is dead are acquired. */
    method Acquire(ghost first: State) returns (r: Acquisition)
      requires Valid(first) && At(state, p, Trying)
      modifies this`state, this`log, this`turn
      ensures Valid(first) && old(log) <= log
      ensures r == Acquired <==> At(state, p, Holding)
      ensures r.NotAcquired? ==> At(state, p, Refused(r.code))
      ensures old(Left()) == 0 ==> r == Undisturbed(old(state), unknown(|old(log)| + 2))
    {
      while true
        invariant Valid(first) && At(state, p, Trying) && old(log) <= log
        invariant old(Left()) == 0 ==>
                    && Left() == 0
                    && (|| (state == old(state) && log == old(log))
                        || (state.dir == Absent && Undisturbed(old(state), unknown(|old(log)| + 2)) == Acquired))
        decreases Left(), if state.dir == Absent then 0 else 1
      {
        var done;
        done, r := Attempt(first);
        if done { return; }
      }
    }

    /** One turn of the loop: it ends the acquisition, or has taken over a dead owner's lock. */
    method Attempt(ghost first: State) returns (done: bool, r: Acquisition)
      requires Valid(first) && At(state, p, Trying)
      modifies this`state, this`log, this`turn
      ensures Valid(first) && old(log) <= log
      ensures done ==> At(state, p, if r == Acquired then Holding else Refused(r.code))
      ensures !done ==> At(state, p, Trying) && state.dir == Absent
      ensures old(Left()) > 0 ==> Left() < old(Left())
      ensures old(Left()) == 0 ==> Left() == 0 && (done || old(state.dir) != Absent)
      ensures old(Left()) == 0 ==>
                if done then r == Undisturbed(old(state), unknown(|old(log)| + 2))
                else Undisturbed(old(state), unknown(|old(log)| + 2)) == Acquired
    {
      done, r := true, Acquired;
      MadeAndWritten(state, p, unknown(|log| + 2));
      TryMake(first);
      if state.processes[p].place == Created {
        TryWrite(first);
        if state.processes[p].place == Holding { return; }
        if state.processes[p].place.Refused? { return true, NotAcquired(LockFailed); }
      }
      done, r := Contest(first);
    }

    /** The directory was found taken: its owner decides. */
    method Contest(ghost first: State) returns (done: bool, r: Acquisition)
      requires Valid(first) && At(state, p, Reading)
      modifies this`state, this`log, this`turn
      ensures Valid(first) && old(log) <= log && Left() <= old(Left())
      ensures done ==> r.NotAcquired? && At(state, p, Refused(r.code))
      ensures !done ==> At(state, p, Trying) && state.dir == Absent
      ensures old(Left()) == 0 && old(state.dir) != Absent ==>
                if done then r == Undisturbed(old(state), unknown(|old(log)| + 1))
                else Undisturbed(old(state), unknown(|old(log)| + 1)) == Acquired
    {
      if state.dir != Absent { ReadAndProbed(state, p, unknown(|log| + 1)); }
      TryRead(first);
      if state.processes[p].place.Refused? { return true, NotAcquired(AmbiguousOwner); }
      TryProbe(first);
      if state.processes[p].place.Refused? { return true, NotAcquired(state.processes[p].place.code); }
      TakeOver(first);
      done, r := false, Acquired;
    }

    /** Gives the lock back, once. */
    method ReleaseLock(ghost first: State)
      requires Valid(first)
      modifies this`state, this`log, this`released
      ensures Valid(first) && released
      ensures old(released) ==> state == old(state) && log == old(log)
      ensures !old(released) && At(old(state), p, Holding) ==> state.dir == Absent && At(state, p, Released)
    {
      if released { return; }
      released := true;
      Do(first, Release(p));
    }
  }

  lemma RunAppend(s: State, events: seq<Event>, e: Event)
    ensures Run(s, events + [e]) == Step(Run(s, events), e)
  {
    assert (events + [e])[..|events|] == events;
  }
}
