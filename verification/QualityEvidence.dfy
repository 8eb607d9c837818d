/** Quality gate evidence: produced, cached by tree fingerprint and age, and trusted by the archive gate. */
module QualityEvidence {
  import opened Text
  import opened InsertionMap

  const QUALITY_MAX_AGE_MS: int := 6 * 60 * 60 * 1000

  type Fingerprint = string

  datatype Level = Quick | Standard | Full

  datatype CommandEvidence = CommandEvidence(
    command: string, ok: bool, durationMs: int, completedAt: int, reused: bool)

  datatype Evidence = Evidence(
    level: Level, ok: bool, fingerprint: Fingerprint, completedAt: int, commands: seq<CommandEvidence>)

  /** What running one command came to. A command that throws did not succeed. */
  datatype Outcome = Outcome(ok: bool, startedAt: int, completedAt: int)

  // ---------- the quality action ----------

  function ScriptFor(level: Level): string {
    match level
    case Quick => "verify:quick"
    case Standard => "verify"
    case Full => "verify:full"
  }

  function Commands(level: Level, scripts: set<string>): seq<string> {
    if ScriptFor(level) in scripts then ["npm run " + ScriptFor(level)] else ["npm test"]
  }

  function FindPassed(commands: seq<CommandEvidence>, command: string): Option<CommandEvidence> {
    if commands == [] then None
    else if commands[0].command == command && commands[0].ok then Some(commands[0])
    else FindPassed(commands[1..], command)
  }

  predicate Fresh(completedAt: int, now: int) {
    0 <= now - completedAt <= QUALITY_MAX_AGE_MS
  }

  function ReusableCommand(evidence: Option<Evidence>, f: Fingerprint, command: string,
                           now: int): Option<CommandEvidence> {
    if evidence.None? || evidence.value.fingerprint != f then None
    else
      var found := FindPassed(evidence.value.commands, command);
      if found.None? || !Fresh(found.value.completedAt, now) then None else found
  }

  function RunCommand(prior: Option<Evidence>, f: Fingerprint, command: string, outcome: Outcome): CommandEvidence {
    var reusable := ReusableCommand(prior, f, command, outcome.startedAt);
    if reusable.Some?
    then CommandEvidence(command, true, reusable.value.durationMs, reusable.value.completedAt, true)
    else CommandEvidence(command, outcome.ok, outcome.completedAt - outcome.startedAt, outcome.completedAt, false)
  }

  /** Runs or reuses the commands in order and stops after the first that fails. */
  function RunCommands(prior: Option<Evidence>, f: Fingerprint, commands: seq<string>,
                       outcomes: seq<Outcome>): seq<CommandEvidence>
    requires |commands| == |outcomes|
  {
    if commands == [] then []
    else
      var result := RunCommand(prior, f, commands[0], outcomes[0]);
      [result] + if result.ok then RunCommands(prior, f, commands[1..], outcomes[1..]) else []
  }

  function KeepReusable(prior: Option<Evidence>, f: Fingerprint, commands: seq<CommandEvidence>,
                        now: int): seq<Entry<string, CommandEvidence>> {
    if commands == [] then []
    else
      var n := |commands| - 1;
      var kept := KeepReusable(prior, f, commands[..n], now);
      if ReusableCommand(prior, f, commands[n].command, now).Some?
      then Set(kept, commands[n].command, commands[n]) else kept
  }

  function SetAll(m: seq<Entry<string, CommandEvidence>>,
                  results: seq<CommandEvidence>): seq<Entry<string, CommandEvidence>> {
    if results == [] then m
    else
      var n := |results| - 1;
      Set(SetAll(m, results[..n]), results[n].command, results[n])
  }

  function Values(m: seq<Entry<string, CommandEvidence>>): (values: seq<CommandEvidence>)
    ensures |values| == |m| && forall i :: 0 <= i < |m| ==> values[i] == m[i].value
  {
    seq(|m|, i requires 0 <= i < |m| => m[i].value)
  }

  function Merged(prior: Option<Evidence>, before: Fingerprint, after: Fingerprint, results: seq<CommandEvidence>,
                  now: int): seq<Entry<string, CommandEvidence>> {
    if before != after then []
    else
      var kept := if prior.Some? && prior.value.fingerprint == before
                  then KeepReusable(prior, before, prior.value.commands, now) else [];
      SetAll(kept, results)
  }

  function AllOk(results: seq<CommandEvidence>): bool {
    results == [] || (results[0].ok && AllOk(results[1..]))
  }

  function Oldest(results: seq<CommandEvidence>): int
    requires results != []
  {
    if |results| == 1 then results[0].completedAt
    else
      var rest := Oldest(results[1..]);
      if results[0].completedAt < rest then results[0].completedAt else rest
  }

  /** The evidence a quality action leaves behind. */
  function Produced(prior: Option<Evidence>, level: Level, commands: seq<string>, before: Fingerprint,
                    after: Fingerprint, outcomes: seq<Outcome>, mergeAt: int, endAt: int): Evidence
    requires |commands| == |outcomes|
  {
    var results := RunCommands(prior, before, commands, outcomes);
    var ok := before == after && |results| == |commands| && results != [] && AllOk(results);
    Evidence(level, ok, after, if ok then Oldest(results) else endAt,
             Values(Merged(prior, before, after, results, mergeAt)))
  }

  /** The stored evidence file. */
  class EvidenceStore {
    var stored: Option<Evidence>

    constructor ()
      ensures stored == None
    {
      stored := None;
    }

    /** The quality action. The tree's fingerprint before and after, the outcomes of the
        commands that are run, and the clock are the environment's. */
    method Quality(level: Level, scripts: set<string>, before: Fingerprint, after: Fingerprint,
                   outcomes: seq<Outcome>, mergeAt: int, endAt: int) returns (ok: bool)
      requires |outcomes| == |Commands(level, scripts)|
      modifies this
      ensures stored
              == Some(Produced(old(stored), level, Commands(level, scripts), before, after, outcomes, mergeAt, endAt))
      ensures ok == stored.value.ok
      ensures stored.value.level == level
      ensures EvidenceMeans(old(stored), Commands(level, scripts), before, after, outcomes, mergeAt, endAt,
                            stored.value)
      ensures Commands(level, scripts) == [RequiredCommand(level, scripts)]
    {
      var commands := Commands(level, scripts);
      var prior := stored;
      ProducedMeans(prior, level, commands, before, after, outcomes, mergeAt, endAt);
      CommandsAre(level, scripts);
      var results := RunAll(prior, before, commands, outcomes);
      var fingerprintStable := after == before;
      var allRequiredRan := |results| == |commands|;
      ok := fingerprintStable && allRequiredRan && |results| > 0 && AllOk(results);
      var merged := [];
      if prior.Some? && prior.value.fingerprint == before {
        merged := Keep(prior, before, prior.value.commands, mergeAt);
      }
      if fingerprintStable {
        merged := Overwrite(merged, results);
      } else {
        merged := [];
      }
      var completedAt := if ok then Oldest(results) else endAt;
      stored := Some(Evidence(level, ok, after, completedAt, Values(merged)));
    }

    static method RunAll(prior: Option<Evidence>, f: Fingerprint, commands: seq<string>, outcomes: seq<Outcome>)
      returns (results: seq<CommandEvidence>)
      requires |commands| == |outcomes|
      ensures results == RunCommands(prior, f, commands, outcomes)
    {
      results := [];
      for i := 0 to |commands|
        invariant AllOk(results)
        invariant results + RunCommands(prior, f, commands[i..], outcomes[i..])
                  == RunCommands(prior, f, commands, outcomes)
      {
        RunOneMore(results, prior, f, commands, outcomes, i);
        var result := RunNext(prior, f, commands[i], outcomes[i]);
        AllOkAppend(results, result);
        results := results + [result];
        if !result.ok { return; }
      }
    }

    /** Reuses a fresh earlier success on the same tree, or runs the command. */
    static method RunNext(prior: Option<Evidence>, f: Fingerprint, command: string, outcome: Outcome)
      returns (result: CommandEvidence)
      ensures result == RunCommand(prior, f, command, outcome)
    {
      var reusable := ReusableCommand(prior, f, command, outcome.startedAt);
      if reusable.Some? {
        return CommandEvidence(command, true, reusable.value.durationMs, reusable.value.completedAt, true);
      }
      result := CommandEvidence(command, outcome.ok, outcome.completedAt - outcome.startedAt, outcome.completedAt,
                                false);
    }

    static method Keep(prior: Option<Evidence>, f: Fingerprint, commands: seq<CommandEvidence>, now: int)
      returns (merged: seq<Entry<string, CommandEvidence>>)
      ensures merged == KeepReusable(prior, f, commands, now)
    {
      merged := [];
      for i := 0 to |commands|
        invariant merged == KeepReusable(prior, f, commands[..i], now)
      {
        assert commands[..i + 1][..i] == commands[..i];
        if ReusableCommand(prior, f, commands[i].command, now).Some? {
          merged := Set(merged, commands[i].command, commands[i]);
        }
      }
      assert commands[..|commands|] == commands;
    }

    static method Overwrite(m: seq<Entry<string, CommandEvidence>>, results: seq<CommandEvidence>)
      returns (merged: seq<Entry<string, CommandEvidence>>)
      ensures merged == SetAll(m, results)
    {
      merged := m;
      for i := 0 to |results|
        invariant merged == SetAll(m, results[..i])
      {
        assert results[..i + 1][..i] == results[..i];
        merged := Set(merged, results[i].command, results[i]);
      }
      assert results[..|results|] == results;
    }
  }

  lemma RunOneMore(results: seq<CommandEvidence>, prior: Option<Evidence>, f: Fingerprint, commands: seq<string>,
                   outcomes: seq<Outcome>, i: nat)
    requires i < |commands| == |outcomes|
    ensures var result := RunCommand(prior, f, commands[i], outcomes[i]);
            results + RunCommands(prior, f, commands[i..], outcomes[i..])
            == results + [result]
               + if result.ok then RunCommands(prior, f, commands[i + 1..], outcomes[i + 1..]) else []
  {
    assert commands[i..][0] == commands[i] && outcomes[i..][0] == outcomes[i];
    assert commands[i..][1..] == commands[i + 1..] && outcomes[i..][1..] == outcomes[i + 1..];
  }

  lemma {:induction false} AllOkAppend(results: seq<CommandEvidence>, r: CommandEvidence)
    ensures AllOk(results + [r]) <==> AllOk(results) && r.ok
  {
    if results != [] {
      assert (results + [r])[1..] == results[1..] + [r];
      AllOkAppend(results[1..], r);
    }
  }

  // ---------- what the stored evidence means ----------

  /** The one command that a level requires. */
  function RequiredCommand(level: Level, scripts: set<string>): string {
    match level
    case Quick => if "verify:quick" in scripts then "npm run verify:quick" else "npm test"
    case Standard => if "verify" in scripts then "npm run verify" else "npm test"
    case Full => if "verify:full" in scripts then "npm run verify:full" else "npm test"
  }

  lemma CommandsAre(level: Level, scripts: set<string>)
    ensures Commands(level, scripts) == [RequiredCommand(level, scripts)]
  {
    assert "npm run " + "verify:quick" == "npm run verify:quick";
    assert "npm run " + "verify" == "npm run verify";
    assert "npm run " + "verify:full" == "npm run verify:full";
  }

  predicate Passed(c: CommandEvidence, command: string) {
    c.command == command && c.ok
  }

  /** The k-th record is the first that says the command passed, on this tree, and it is not from
      the future and at most six hours old. */
  predicate ReusableAt(prior: Option<Evidence>, f: Fingerprint, command: string, now: int, k: nat) {
    && prior.Some? && prior.value.fingerprint == f && k < |prior.value.commands|
    && Passed(prior.value.commands[k], command)
    && (forall j :: 0 <= j < k ==> !Passed(prior.value.commands[j], command))
    && 0 <= now - prior.value.commands[k].completedAt <= 6 * 60 * 60 * 1000
  }

  ghost predicate Reusable(prior: Option<Evidence>, f: Fingerprint, command: string, now: int) {
    exists k: nat :: ReusableAt(prior, f, command, now, k)
  }

  /** A command is reused, with its time and duration, if and only if there is such a record;
      otherwise it was run. */
  ghost predicate ResultMeans(prior: Option<Evidence>, f: Fingerprint, command: string, outcome: Outcome,
                              r: CommandEvidence) {
    && r.command == command
    && (r.reused <==> Reusable(prior, f, command, outcome.startedAt))
    && (r.reused ==> r.ok && exists k: nat :: ReusableAt(prior, f, command, outcome.startedAt, k)
                                        && r.completedAt == prior.value.commands[k].completedAt
                                        && r.durationMs == prior.value.commands[k].durationMs)
    && (!r.reused ==> r.ok == outcome.ok && r.completedAt == outcome.completedAt
                      && r.durationMs == outcome.completedAt - outcome.startedAt)
  }

  /** The commands ran or were reused in order, up to the first that failed. */
  ghost predicate ResultsMean(prior: Option<Evidence>, f: Fingerprint, commands: seq<string>, outcomes: seq<Outcome>,
                              results: seq<CommandEvidence>)
    requires |commands| == |outcomes|
  {
    && |results| <= |commands|
    && (forall i :: 0 <= i < |results| ==> ResultMeans(prior, f, commands[i], outcomes[i], results[i]))
    && (forall i :: 0 <= i < |results| - 1 ==> results[i].ok)
    && (|results| < |commands| ==> results != [] && !results[|results| - 1].ok)
  }

  /** The last record for its command. */
  predicate IsLast(records: seq<CommandEvidence>, i: nat) {
    i < |records| && forall j :: i < j < |records| ==> records[j].command != records[i].command
  }

  predicate Mentions(records: seq<CommandEvidence>, command: string) {
    exists i :: 0 <= i < |records| && records[i].command == command
  }

  /** The records kept are one for each command: the action's own result, or, for a command that
      it did not get to, the prior record on the same tree, if and only if the command passed
      there and that is still fresh. */
  ghost predicate RecordsMean(prior: Option<Evidence>, f: Fingerprint, results: seq<CommandEvidence>, now: int,
                              records: seq<CommandEvidence>) {
    && (forall i, j :: 0 <= i < j < |records| ==> records[i].command != records[j].command)
    && (forall i: nat :: IsLast(results, i) ==> results[i] in records)
    && (prior.Some? && prior.value.fingerprint == f ==>
          forall i: nat :: IsLast(prior.value.commands, i) && !Mentions(results, prior.value.commands[i].command) ==>
            (prior.value.commands[i] in records <==> Reusable(prior, f, prior.value.commands[i].command, now)))
    && (forall r :: r in records && !Mentions(results, r.command) ==>
          prior.Some? && prior.value.fingerprint == f && Mentions(prior.value.commands, r.command))
  }

  lemma {:induction false} FirstPass(commands: seq<CommandEvidence>, command: string)
    ensures var found := FindPassed(commands, command);
            && (found.None? ==> forall j :: 0 <= j < |commands| ==> !Passed(commands[j], command))
            && (found.Some? ==> exists k :: 0 <= k < |commands| && commands[k] == found.value
                                            && Passed(commands[k], command)
                                            && forall j :: 0 <= j < k ==> !Passed(commands[j], command))
  {
    if commands != [] && !Passed(commands[0], command) {
      FirstPass(commands[1..], command);
      var rest := commands[1..];
      forall j | 0 <= j < |rest| ensures rest[j] == commands[j + 1] {}
      if FindPassed(rest, command).Some? {
        var k :| 0 <= k < |rest| && rest[k] == FindPassed(rest, command).value && Passed(rest[k], command)
                 && forall j :: 0 <= j < k ==> !Passed(rest[j], command);
        assert commands[k + 1] == rest[k];
        forall j | 0 <= j < k + 1 ensures !Passed(commands[j], command) {
          if j > 0 { assert rest[j - 1] == commands[j]; }
        }
      } else {
        forall j | 0 <= j < |commands| ensures !Passed(commands[j], command) {
          if j > 0 { assert rest[j - 1] == commands[j]; }
        }
      }
    }
  }

  lemma ReusableMeans(prior: Option<Evidence>, f: Fingerprint, command: string, now: int)
    ensures ReusableCommand(prior, f, command, now).Some? <==> Reusable(prior, f, command, now)
    ensures ReusableCommand(prior, f, command, now).Some? ==>
              exists k: nat :: ReusableAt(prior, f, command, now, k)
                          && prior.value.commands[k] == ReusableCommand(prior, f, command, now).value
  {
    if prior.Some? && prior.value.fingerprint == f {
      var commands := prior.value.commands;
      FirstPass(commands, command);
      if FindPassed(commands, command).Some? {
        var k :| 0 <= k < |commands| && commands[k] == FindPassed(commands, command).value
                 && Passed(commands[k], command) && forall j :: 0 <= j < k ==> !Passed(commands[j], command);
        assert Fresh(commands[k].completedAt, now) ==> ReusableAt(prior, f, command, now, k);
        forall i: nat | ReusableAt(prior, f, command, now, i) ensures i == k {}
      }
    }
  }

  lemma {:induction false} RunMeans(prior: Option<Evidence>, f: Fingerprint, commands: seq<string>,
                                    outcomes: seq<Outcome>)
    requires |commands| == |outcomes|
    ensures ResultsMean(prior, f, commands, outcomes, RunCommands(prior, f, commands, outcomes))
  {
    if commands != [] {
      ReusableMeans(prior, f, commands[0], outcomes[0].startedAt);
      RunMeans(prior, f, commands[1..], outcomes[1..]);
    }
  }

  predicate Keyed(m: seq<Entry<string, CommandEvidence>>) {
    DistinctKeys(m) && forall i :: 0 <= i < |m| ==> m[i].key == m[i].value.command
  }

  lemma {:induction false} SetKeyed(m: seq<Entry<string, CommandEvidence>>, c: CommandEvidence)
    requires Keyed(m)
    ensures Keyed(Set(m, c.command, c))
  {
    SetProperties(m, c.command, c);
    SetMembers(m, c.command, c);
    var out := Set(m, c.command, c);
    forall i | 0 <= i < |out| ensures out[i].key == out[i].value.command { assert out[i] in out; }
  }

  lemma {:induction false} KeepKeyed(prior: Option<Evidence>, f: Fingerprint, commands: seq<CommandEvidence>, now: int)
    ensures Keyed(KeepReusable(prior, f, commands, now))
  {
    if commands != [] {
      var n := |commands| - 1;
      KeepKeyed(prior, f, commands[..n], now);
      SetKeyed(KeepReusable(prior, f, commands[..n], now), commands[n]);
    }
  }

  lemma {:induction false} SetAllKeyed(m: seq<Entry<string, CommandEvidence>>, results: seq<CommandEvidence>)
    requires Keyed(m)
    ensures Keyed(SetAll(m, results))
  {
    if results != [] {
      var n := |results| - 1;
      SetAllKeyed(m, results[..n]);
      SetKeyed(SetAll(m, results[..n]), results[n]);
    }
  }

  lemma {:induction false} ValueIsGot(m: seq<Entry<string, CommandEvidence>>, i: nat)
    requires Keyed(m) && i < |m|
    ensures Get(m, m[i].key) == Some(m[i].value)
  {
    if i > 0 {
      DistinctKeysDiffer(m, 0, i);
      ValueIsGot(m[1..], i - 1);
    }
  }

  lemma ListedIsGot(m: seq<Entry<string, CommandEvidence>>, c: CommandEvidence)
    requires Keyed(m)
    ensures c in Values(m) <==> Get(m, c.command) == Some(c)
  {
    if c in Values(m) {
      var i :| 0 <= i < |m| && Values(m)[i] == c;
      ValueIsGot(m, i);
    }
    if Get(m, c.command).Some? { GetIsValue(m, c.command); }
  }

  lemma {:induction false} GetLast(m: seq<Entry<string, CommandEvidence>>, results: seq<CommandEvidence>, i: nat)
    requires IsLast(results, i)
    ensures Get(SetAll(m, results), results[i].command) == Some(results[i])
  {
    var n := |results| - 1;
    GetSet(SetAll(m, results[..n]), results[n].command, results[n], results[i].command);
    if i < n { GetLast(m, results[..n], i); }
  }

  lemma {:induction false} GetOther(m: seq<Entry<string, CommandEvidence>>, results: seq<CommandEvidence>,
                                    command: string)
    requires !Mentions(results, command)
    ensures Get(SetAll(m, results), command) == Get(m, command)
  {
    if results != [] {
      var n := |results| - 1;
      assert results[n].command != command;
      assert !Mentions(results[..n], command) by {
        forall i | 0 <= i < n ensures results[..n][i].command != command { assert results[i].command != command; }
      }
      GetSet(SetAll(m, results[..n]), results[n].command, results[n], command);
      GetOther(m, results[..n], command);
    }
  }

  lemma {:induction false} GetKept(prior: Option<Evidence>, f: Fingerprint, commands: seq<CommandEvidence>, now: int,
                                   i: nat)
    requires IsLast(commands, i)
    ensures Get(KeepReusable(prior, f, commands, now), commands[i].command)
            == if ReusableCommand(prior, f, commands[i].command, now).Some? then Some(commands[i]) else None
  {
    var n := |commands| - 1;
    var kept := KeepReusable(prior, f, commands[..n], now);
    GetSet(kept, commands[n].command, commands[n], commands[i].command);
    if i < n {
      GetKept(prior, f, commands[..n], now, i);
    } else {
      NoneKept(prior, f, commands[..n], now, commands[n].command);
    }
  }

  /** Nothing is kept for a command that is not reusable, or not mentioned. */
  lemma {:induction false} NoneKept(prior: Option<Evidence>, f: Fingerprint, commands: seq<CommandEvidence>, now: int,
                                    command: string)
    ensures ReusableCommand(prior, f, command, now).None? || !Mentions(commands, command) ==>
              Get(KeepReusable(prior, f, commands, now), command) == None
  {
    if commands != [] {
      var n := |commands| - 1;
      NoneKept(prior, f, commands[..n], now, command);
      GetSet(KeepReusable(prior, f, commands[..n], now), commands[n].command, commands[n], command);
      if i :| 0 <= i < n && commands[..n][i].command == command { assert commands[i].command == command; }
    }
  }

  lemma MergedMeans(prior: Option<Evidence>, f: Fingerprint, results: seq<CommandEvidence>, now: int)
    ensures RecordsMean(prior, f, results, now, Values(Merged(prior, f, f, results, now)))
  {
    var commands := if prior.Some? && prior.value.fingerprint == f then prior.value.commands else [];
    var kept := KeepReusable(prior, f, commands, now);
    var m := Merged(prior, f, f, results, now);
    var records := Values(m);
    KeepKeyed(prior, f, commands, now);
    SetAllKeyed(kept, results);
    forall i, j | 0 <= i < j < |records| ensures records[i].command != records[j].command {
      DistinctKeysDiffer(m, i, j);
    }
    forall i: nat | IsLast(results, i) ensures results[i] in records {
      GetLast(kept, results, i);
      ListedIsGot(m, results[i]);
    }
    forall i: nat | IsLast(commands, i) && !Mentions(results, commands[i].command)
      ensures commands[i] in records <==> Reusable(prior, f, commands[i].command, now)
    {
      GetOther(kept, results, commands[i].command);
      GetKept(prior, f, commands, now, i);
      ReusableMeans(prior, f, commands[i].command, now);
      ListedIsGot(m, commands[i]);
    }
    forall r | r in records && !Mentions(results, r.command) ensures Mentions(commands, r.command) {
      ListedIsGot(m, r);
      GetOther(kept, results, r.command);
      NoneKept(prior, f, commands, now, r.command);
    }
  }

  predicate AllPassed(results: seq<CommandEvidence>) {
    forall i :: 0 <= i < |results| ==> results[i].ok
  }

  /** The time is that of the oldest result. */
  predicate OldestAt(results: seq<CommandEvidence>, completedAt: int) {
    && (forall i :: 0 <= i < |results| ==> completedAt <= results[i].completedAt)
    && exists i :: 0 <= i < |results| && results[i].completedAt == completedAt
  }

  ghost predicate EvidenceFrom(prior: Option<Evidence>, count: nat, before: Fingerprint, after: Fingerprint,
                               mergeAt: int, endAt: int, results: seq<CommandEvidence>, e: Evidence) {
    && e.fingerprint == after
    && (if before == after then RecordsMean(prior, before, results, mergeAt, e.commands) else e.commands == [])
    && (e.ok <==> before == after && results != [] && |results| == count && AllPassed(results))
    && (if e.ok then OldestAt(results, e.completedAt) else e.completedAt == endAt)
  }

  /** The evidence after a quality action, in terms of the commands, the prior records and what
      the commands that ran came to. */
  ghost predicate EvidenceMeans(prior: Option<Evidence>, commands: seq<string>, before: Fingerprint,
                                after: Fingerprint, outcomes: seq<Outcome>, mergeAt: int, endAt: int, e: Evidence)
    requires |commands| == |outcomes|
  {
    exists results :: ResultsMean(prior, before, commands, outcomes, results)
                      && EvidenceFrom(prior, |commands|, before, after, mergeAt, endAt, results, e)
  }

  lemma ProducedMeans(prior: Option<Evidence>, level: Level, commands: seq<string>, before: Fingerprint,
                      after: Fingerprint, outcomes: seq<Outcome>, mergeAt: int, endAt: int)
    requires |commands| == |outcomes|
    ensures var e := Produced(prior, level, commands, before, after, outcomes, mergeAt, endAt);
            e.level == level && EvidenceMeans(prior, commands, before, after, outcomes, mergeAt, endAt, e)
  {
    var results := RunCommands(prior, before, commands, outcomes);
    var e := Produced(prior, level, commands, before, after, outcomes, mergeAt, endAt);
    RunMeans(prior, before, commands, outcomes);
    FromResults(prior, level, commands, before, after, outcomes, mergeAt, endAt);
  }

  lemma FromResults(prior: Option<Evidence>, level: Level, commands: seq<string>, before: Fingerprint,
                    after: Fingerprint, outcomes: seq<Outcome>, mergeAt: int, endAt: int)
    requires |commands| == |outcomes|
    ensures EvidenceFrom(prior, |commands|, before, after, mergeAt, endAt,
                         RunCommands(prior, before, commands, outcomes),
                         Produced(prior, level, commands, before, after, outcomes, mergeAt, endAt))
  {
    var results := RunCommands(prior, before, commands, outcomes);
    MergedMeans(prior, before, results, mergeAt);
    AllOkMeans(results);
    if results != [] && AllOk(results) { OldestMeans(results); }
  }

  lemma OldestMeans(results: seq<CommandEvidence>)
    requires results != [] && AllOk(results)
    ensures OldestAt(results, Oldest(results))
  {
    AllOkOldest(results);
    var r :| r in results && r.completedAt == Oldest(results);
    var i :| 0 <= i < |results| && results[i] == r;
  }

  lemma {:induction false} AllOkMeans(results: seq<CommandEvidence>)
    ensures AllOk(results) <==> AllPassed(results)
  {
    if results != [] {
      AllOkMeans(results[1..]);
      assert forall i :: 0 < i < |results| ==> results[i] == results[1..][i - 1];
    }
  }

  // ---------- the archive gate ----------

  /** The quality checks of the archive gate. */
  predicate GateAccepts(quality: Option<Evidence>, f: Fingerprint, now: int) {
    && quality.Some? && quality.value.ok && quality.value.level == Full
    && quality.value.fingerprint == f
    && Fresh(quality.value.completedAt, now)
  }

  // ---------- histories ----------

  /** A command really executed in a session between two actions of the history, which found the
      tree at `before` and at `after`. */
  datatype Exec = Exec(
    command: string, before: Fingerprint, after: Fingerprint, ok: bool, completedAt: int, begin: nat, end: nat)

  /** A quality action between its first and its last await. */
  datatype Session = Session(
    level: Level, commands: seq<string>, before: Fingerprint, prior: Option<Evidence>, startedAt: int, begin: nat)

  datatype World = World(
    stored: Option<Evidence>, tree: Fingerprint, now: int, steps: nat,
    sessions: map<nat, Session>, history: set<Exec>)

  datatype Action =
    | Edit(tree: Fingerprint)
    | Tick(ms: nat)
    | LoseEvidence
    | BeginQuality(session: nat, level: Level)
    | EndQuality(session: nat, outcomes: seq<Outcome>, mergeAt: int)

  /** The clock readings of a session: in order, after its start and not in the future. */
  predicate InOrder(from: int, outcomes: seq<Outcome>, until: int)
    decreases outcomes
  {
    if outcomes == [] then from <= until
    else
      from <= outcomes[0].startedAt <= outcomes[0].completedAt
      && InOrder(outcomes[0].completedAt, outcomes[1..], until)
  }

  predicate CanEnd(w: World, a: Action) {
    a.EndQuality? && a.session in w.sessions &&
    var s := w.sessions[a.session];
    |a.outcomes| == |s.commands| && InOrder(s.startedAt, a.outcomes, a.mergeAt) && a.mergeAt <= w.now
  }

  function Executed(results: seq<CommandEvidence>, before: Fingerprint, after: Fingerprint, begin: nat,
                    end: nat): set<Exec> {
    set r | r in results && !r.reused :: Exec(r.command, before, after, r.ok, r.completedAt, begin, end)
  }

  function Act(scripts: Fingerprint -> set<string>, w: World, a: Action): World {
    match a
    case Edit(tree) => w.(tree := tree, steps := w.steps + 1)
    case Tick(ms) => w.(now := w.now + ms, steps := w.steps + 1)
    case LoseEvidence => w.(stored := None, steps := w.steps + 1)
    case BeginQuality(id, level) =>
      var s := Session(level, Commands(level, scripts(w.tree)), w.tree, w.stored, w.now, w.steps);
      w.(sessions := w.sessions[id := s], steps := w.steps + 1)
    case EndQuality(id, outcomes, mergeAt) =>
      if !CanEnd(w, a) then w.(steps := w.steps + 1)
      else
        var s := w.sessions[id];
        var results := RunCommands(s.prior, s.before, s.commands, outcomes);
        w.(stored := Some(Produced(s.prior, s.level, s.commands, s.before, w.tree, outcomes, mergeAt, w.now)),
           sessions := w.sessions - {id},
           history := w.history + Executed(results, s.before, w.tree, s.begin, w.steps),
           steps := w.steps + 1)
  }

  function Play(scripts: Fingerprint -> set<string>, w: World, actions: seq<Action>): World {
    if actions == [] then w
    else Act(scripts, Play(scripts, w, actions[..|actions| - 1]), actions[|actions| - 1])
  }

  function Start(tree: Fingerprint, now: int): World {
    World(None, tree, now, 0, map[], {})
  }

  // ---------- no staleness is laundered ----------

  /** The execution that a passing record stands for: in a session that began and ended on
      the tree. */
  predicate StandsFor(c: CommandEvidence, f: Fingerprint, e: Exec) {
    e.command == c.command && e.before == f && e.after == f && e.ok && e.completedAt == c.completedAt
  }

  /** A passing record stands for a real success. */
  ghost predicate Real(c: CommandEvidence, f: Fingerprint, history: set<Exec>, now: int) {
    c.ok ==> c.completedAt <= now && exists e :: e in history && StandsFor(c, f, e)
  }

  ghost predicate AllReal(commands: seq<CommandEvidence>, f: Fingerprint, history: set<Exec>, now: int) {
    forall c :: c in commands ==> Real(c, f, history, now)
  }

  /** Some record says that the command passed, at `since` or later. */
  ghost predicate PassedSince(commands: seq<CommandEvidence>, command: string, since: int) {
    exists c :: c in commands && c.command == command && c.ok && since <= c.completedAt
  }

  ghost predicate Sound(scripts: Fingerprint -> set<string>, e: Evidence, history: set<Exec>, now: int) {
    && AllReal(e.commands, e.fingerprint, history, now)
    && e.completedAt <= now
    && (e.ok && e.level == Full ==>
          forall command :: command in Commands(Full, scripts(e.fingerprint))
                            ==> PassedSince(e.commands, command, e.completedAt))
  }

  ghost predicate Inv(scripts: Fingerprint -> set<string>, w: World) {
    && (w.stored.Some? ==> Sound(scripts, w.stored.value, w.history, w.now))
    && (forall id :: id in w.sessions ==> SessionOk(scripts, w.sessions[id], w.history, w.now))
  }

  ghost predicate SessionOk(scripts: Fingerprint -> set<string>, s: Session, history: set<Exec>, now: int) {
    && (s.prior.Some? ==> Sound(scripts, s.prior.value, history, s.startedAt))
    && s.commands == Commands(s.level, scripts(s.before))
    && s.startedAt <= now
  }

  lemma SoundLater(scripts: Fingerprint -> set<string>, e: Evidence, history: set<Exec>, now: int, history': set<Exec>,
                   now': int)
    requires Sound(scripts, e, history, now) && history <= history' && now <= now'
    ensures Sound(scripts, e, history', now')
  {
  }

  lemma {:induction false} FindPassedFinds(commands: seq<CommandEvidence>, command: string)
    ensures var found := FindPassed(commands, command);
            found.Some? ==> found.value in commands && found.value.command == command && found.value.ok
  {
    if commands != [] { FindPassedFinds(commands[1..], command); }
  }

  lemma {:induction false} ResultsReal(prior: Option<Evidence>, f: Fingerprint, commands: seq<string>,
                                       outcomes: seq<Outcome>, from: int, until: int, history: set<Exec>,
                                       begin: nat, end: nat)
    requires |commands| == |outcomes| && InOrder(from, outcomes, until)
    requires prior.Some? && prior.value.fingerprint == f ==> AllReal(prior.value.commands, f, history, until)
    ensures var results := RunCommands(prior, f, commands, outcomes);
            AllReal(results, f, history + Executed(results, f, f, begin, end), until)
    decreases commands
  {
    if commands != [] {
      var result, results := RunCommand(prior, f, commands[0], outcomes[0]), RunCommands(prior, f, commands, outcomes);
      var rest := RunCommands(prior, f, commands[1..], outcomes[1..]);
      ResultsReal(prior, f, commands[1..], outcomes[1..], outcomes[0].completedAt, until, history, begin, end);
      InOrderEnds(outcomes[0].completedAt, outcomes[1..], until);
      assert results == [result] + if result.ok then rest else [];
      assert result in results;
      FirstReal(prior, f, commands[0], outcomes[0], until, history, results, begin, end);
      var after := history + Executed(results, f, f, begin, end);
      forall c | c in results ensures Real(c, f, after, until) {
        if c != result {
          assert c in rest;
          RealLater(c, f, history + Executed(rest, f, f, begin, end), until, after, until);
        }
      }
    }
  }

  lemma RealLater(c: CommandEvidence, f: Fingerprint, history: set<Exec>, now: int, history': set<Exec>, now': int)
    requires Real(c, f, history, now) && history <= history' && now <= now'
    ensures Real(c, f, history', now')
  {
  }

  lemma FirstReal(prior: Option<Evidence>, f: Fingerprint, command: string, outcome: Outcome, until: int,
                  history: set<Exec>, results: seq<CommandEvidence>, begin: nat, end: nat)
    requires RunCommand(prior, f, command, outcome) in results && outcome.completedAt <= until
    requires prior.Some? && prior.value.fingerprint == f ==> AllReal(prior.value.commands, f, history, until)
    ensures Real(RunCommand(prior, f, command, outcome), f, history + Executed(results, f, f, begin, end), until)
  {
    var result := RunCommand(prior, f, command, outcome);
    if prior.Some? { FindPassedFinds(prior.value.commands, command); }
    var reusable := ReusableCommand(prior, f, command, outcome.startedAt);
    if reusable.Some? {
      assert Real(reusable.value, f, history, until);
      var e :| e in history && StandsFor(reusable.value, f, e);
      assert StandsFor(result, f, e);
    } else {
      var e := Exec(command, f, f, outcome.ok, outcome.completedAt, begin, end);
      assert e in Executed(results, f, f, begin, end);
      assert outcome.ok ==> StandsFor(result, f, e);
    }
  }

  lemma {:induction false} InOrderEnds(from: int, outcomes: seq<Outcome>, until: int)
    requires InOrder(from, outcomes, until)
    ensures from <= until
    decreases outcomes
  {
    if outcomes != [] { InOrderEnds(outcomes[0].completedAt, outcomes[1..], until); }
  }

  /** Every merged record is a prior record or a result. */
  lemma {:induction false} SetAllMembers(m: seq<Entry<string, CommandEvidence>>, results: seq<CommandEvidence>)
    ensures forall e :: e in SetAll(m, results) ==> e in m || e.value in results
  {
    if results != [] {
      var n := |results| - 1;
      SetAllMembers(m, results[..n]);
      SetMembers(SetAll(m, results[..n]), results[n].command, results[n]);
    }
  }

  lemma {:induction false} SetMembers(m: seq<Entry<string, CommandEvidence>>, key: string, value: CommandEvidence)
    ensures forall e :: e in Set(m, key, value) ==> e in m || e == Entry(key, value)
  {
    if m != [] { SetMembers(m[1..], key, value); }
  }

  lemma {:induction false} KeepMembers(prior: Option<Evidence>, f: Fingerprint, commands: seq<CommandEvidence>,
                                       now: int)
    ensures forall e :: e in KeepReusable(prior, f, commands, now) ==> e.value in commands
  {
    if commands != [] {
      var n := |commands| - 1;
      KeepMembers(prior, f, commands[..n], now);
      SetMembers(KeepReusable(prior, f, commands[..n], now), commands[n].command, commands[n]);
    }
  }

  /** Each result's command is found in the merged records, as one of the results. */
  lemma {:induction false} SetAllCovers(m: seq<Entry<string, CommandEvidence>>, results: seq<CommandEvidence>,
                                        command: string)
    requires exists r :: r in results && r.command == command
    ensures var found := Get(SetAll(m, results), command);
            found.Some? && found.value in results && found.value.command == command
  {
    var n := |results| - 1;
    GetSet(SetAll(m, results[..n]), results[n].command, results[n], command);
    if results[n].command != command { SetAllCovers(m, results[..n], command); }
  }

  lemma {:induction false} GetIsValue(m: seq<Entry<string, CommandEvidence>>, key: string)
    requires Get(m, key).Some?
    ensures Get(m, key).value in Values(m)
  {
    if m[0].key == key {
      assert Values(m)[0] == m[0].value;
    } else {
      GetIsValue(m[1..], key);
      var i :| 0 <= i < |m| - 1 && Values(m[1..])[i] == Get(m, key).value;
      assert Values(m)[i + 1] == Get(m, key).value;
    }
  }

  lemma {:induction false} AllOkOldest(results: seq<CommandEvidence>)
    requires results != [] && AllOk(results)
    ensures forall r :: r in results ==> r.ok && Oldest(results) <= r.completedAt
    ensures exists r :: r in results && r.completedAt == Oldest(results)
  {
    if |results| == 1 {
      assert results[0] in results;
    } else {
      AllOkOldest(results[1..]);
      assert results[0] in results;
    }
  }

  lemma {:induction false} ResultsFollowCommands(prior: Option<Evidence>, f: Fingerprint, commands: seq<string>,
                                                 outcomes: seq<Outcome>)
    requires |commands| == |outcomes|
    ensures var results := RunCommands(prior, f, commands, outcomes);
            |results| <= |commands| && forall i :: 0 <= i < |results| ==> results[i].command == commands[i]
  {
    if commands != [] { ResultsFollowCommands(prior, f, commands[1..], outcomes[1..]); }
  }

  lemma MergedReal(prior: Option<Evidence>, f: Fingerprint, results: seq<CommandEvidence>, mergeAt: int,
                   history: set<Exec>, now: int)
    requires prior.Some? && prior.value.fingerprint == f ==> AllReal(prior.value.commands, f, history, now)
    requires AllReal(results, f, history, now)
    ensures AllReal(Values(Merged(prior, f, f, results, mergeAt)), f, history, now)
  {
    var kept :=
      if prior.Some? && prior.value.fingerprint == f then KeepReusable(prior, f, prior.value.commands, mergeAt) else [];
    if prior.Some? { KeepMembers(prior, f, prior.value.commands, mergeAt); }
    SetAllMembers(kept, results);
    var m := Merged(prior, f, f, results, mergeAt);
    forall c | c in Values(m) ensures Real(c, f, history, now) {
      var i :| 0 <= i < |m| && Values(m)[i] == c;
      assert m[i] in m;
    }
  }

  lemma MergedCovers(prior: Option<Evidence>, f: Fingerprint, commands: seq<string>, outcomes: seq<Outcome>,
                     mergeAt: int, command: string)
    requires |commands| == |outcomes| && command in commands
    requires var results := RunCommands(prior, f, commands, outcomes);
             |results| == |commands| && AllOk(results)
    ensures var results := RunCommands(prior, f, commands, outcomes);
            PassedSince(Values(Merged(prior, f, f, results, mergeAt)), command, Oldest(results))
  {
    var results := RunCommands(prior, f, commands, outcomes);
    ResultsFollowCommands(prior, f, commands, outcomes);
    AllOkOldest(results);
    var i :| 0 <= i < |commands| && commands[i] == command;
    assert results[i] in results && results[i].command == command;
    var kept :=
      if prior.Some? && prior.value.fingerprint == f then KeepReusable(prior, f, prior.value.commands, mergeAt) else [];
    SetAllCovers(kept, results, command);
    GetIsValue(SetAll(kept, results), command);
  }

  lemma ProducedSound(scripts: Fingerprint -> set<string>, s: Session, after: Fingerprint, outcomes: seq<Outcome>,
                      mergeAt: int, now: int, history: set<Exec>, end: nat)
    requires SessionOk(scripts, s, history, now)
    requires |outcomes| == |s.commands| && InOrder(s.startedAt, outcomes, mergeAt) && mergeAt <= now
    ensures Sound(scripts, Produced(s.prior, s.level, s.commands, s.before, after, outcomes, mergeAt, now),
                  history + Executed(RunCommands(s.prior, s.before, s.commands, outcomes), s.before, after, s.begin,
                                     end), now)
  {
    InOrderEnds(s.startedAt, outcomes, mergeAt);
    if s.prior.Some? {
      SoundLater(scripts, s.prior.value, history, s.startedAt, history, mergeAt);
      SoundLater(scripts, s.prior.value, history, s.startedAt, history, now);
    }
    var results := RunCommands(s.prior, s.before, s.commands, outcomes);
    var e := Produced(s.prior, s.level, s.commands, s.before, after, outcomes, mergeAt, now);
    if s.before != after {
      assert e.commands == [] && !e.ok;
    } else {
      var history' := history + Executed(results, after, after, s.begin, end);
      ResultsReal(s.prior, after, s.commands, outcomes, s.startedAt, mergeAt, history, s.begin, end);
      if s.prior.Some? { SoundLater(scripts, s.prior.value, history, s.startedAt, history', now); }
      MergedReal(s.prior, after, results, mergeAt, history', now);
      if e.ok {
        AllOkOldest(results);
        forall command | command in s.commands ensures PassedSince(e.commands, command, e.completedAt) {
          MergedCovers(s.prior, after, s.commands, outcomes, mergeAt, command);
        }
      }
    }
  }

  lemma ActKeepsInv(scripts: Fingerprint -> set<string>, w: World, a: Action)
    requires Inv(scripts, w)
    ensures Inv(scripts, Act(scripts, w, a))
  {
    var next := Act(scripts, w, a);
    if next.stored == w.stored && w.stored.Some? {
      SoundLater(scripts, w.stored.value, w.history, w.now, next.history, next.now);
    }
    forall id | id in next.sessions && id in w.sessions && next.sessions[id] == w.sessions[id]
      ensures SessionOk(scripts, next.sessions[id], next.history, next.now)
    {
      SessionLater(scripts, w.sessions[id], w, next);
    }
    if a.EndQuality? && CanEnd(w, a) {
      ProducedSound(scripts, w.sessions[a.session], w.tree, a.outcomes, a.mergeAt, w.now, w.history, w.steps);
    }
  }

  lemma SessionLater(scripts: Fingerprint -> set<string>, s: Session, w: World, next: World)
    requires SessionOk(scripts, s, w.history, w.now) && w.history <= next.history && w.now <= next.now
    ensures SessionOk(scripts, s, next.history, next.now)
  {
    if s.prior.Some? { SoundLater(scripts, s.prior.value, w.history, s.startedAt, next.history, s.startedAt); }
  }

  lemma {:induction false} InvAlways(scripts: Fingerprint -> set<string>, tree: Fingerprint, now: int,
                                     actions: seq<Action>)
    ensures Inv(scripts, Play(scripts, Start(tree, now), actions))
  {
    if actions != [] {
      var n := |actions| - 1;
      InvAlways(scripts, tree, now, actions[..n]);
      ActKeepsInv(scripts, Play(scripts, Start(tree, now), actions[..n]), actions[n]);
    }
  }

  // ---------- what the tree was meanwhile ----------

  /** The tree that the k-th action finds. */
  function TreeAt(scripts: Fingerprint -> set<string>, first: World, actions: seq<Action>, k: nat): Fingerprint
    requires k <= |actions|
  {
    Play(scripts, first, actions[..k]).tree
  }

  /** Between the two the session does not begin anew. */
  predicate Open(actions: seq<Action>, session: nat, begin: nat, end: nat)
    requires end <= |actions|
  {
    forall k :: begin < k < end ==> !(actions[k].BeginQuality? && actions[k].session == session)
  }

  /** The execution is a result of the session that these two actions began and ended. */
  ghost predicate RanIn(scripts: Fingerprint -> set<string>, first: World, actions: seq<Action>, e: Exec) {
    && e.begin < e.end < |actions|
    && actions[e.begin].BeginQuality? && actions[e.end].EndQuality?
    && actions[e.begin].session == actions[e.end].session
    && Open(actions, actions[e.end].session, e.begin, e.end)
    && TreeAt(scripts, first, actions, e.begin) == e.before && TreeAt(scripts, first, actions, e.end) == e.after
    && exists o :: o in actions[e.end].outcomes && o.ok == e.ok && o.completedAt == e.completedAt
  }

  ghost predicate BeganAt(scripts: Fingerprint -> set<string>, first: World, actions: seq<Action>, id: nat,
                          s: Session) {
    && s.begin < |actions| && actions[s.begin] == BeginQuality(id, s.level)
    && Open(actions, id, s.begin, |actions|) && TreeAt(scripts, first, actions, s.begin) == s.before
  }

  /** Sessions and executions are where the history says. */
  ghost predicate Placed(scripts: Fingerprint -> set<string>, first: World, actions: seq<Action>) {
    var w := Play(scripts, first, actions);
    && w.steps == |actions|
    && (forall id :: id in w.sessions ==> BeganAt(scripts, first, actions, id, w.sessions[id]))
    && (forall e :: e in w.history ==> RanIn(scripts, first, actions, e))
  }

  lemma TreeEarlier(scripts: Fingerprint -> set<string>, first: World, actions: seq<Action>, a: Action, k: nat)
    requires k <= |actions|
    ensures TreeAt(scripts, first, actions + [a], k) == TreeAt(scripts, first, actions, k)
  {
    assert (actions + [a])[..k] == actions[..k];
  }

  lemma RanEarlier(scripts: Fingerprint -> set<string>, first: World, actions: seq<Action>, a: Action, e: Exec)
    requires RanIn(scripts, first, actions, e)
    ensures RanIn(scripts, first, actions + [a], e)
  {
    TreeEarlier(scripts, first, actions, a, e.begin);
    TreeEarlier(scripts, first, actions, a, e.end);
  }

  lemma BeganEarlier(scripts: Fingerprint -> set<string>, first: World, actions: seq<Action>, a: Action, id: nat,
                     s: Session)
    requires BeganAt(scripts, first, actions, id, s) && !(a.BeginQuality? && a.session == id)
    ensures BeganAt(scripts, first, actions + [a], id, s)
  {
    TreeEarlier(scripts, first, actions, a, s.begin);
  }

  lemma {:induction false} ResultIsOutcome(prior: Option<Evidence>, f: Fingerprint, commands: seq<string>,
                                           outcomes: seq<Outcome>, r: CommandEvidence)
    requires |commands| == |outcomes| && r in RunCommands(prior, f, commands, outcomes) && !r.reused
    ensures exists o :: o in outcomes && o.ok == r.ok && o.completedAt == r.completedAt
  {
    if r == RunCommand(prior, f, commands[0], outcomes[0]) {
      assert outcomes[0] in outcomes;
    } else {
      ResultIsOutcome(prior, f, commands[1..], outcomes[1..], r);
    }
  }

  lemma NewExecution(scripts: Fingerprint -> set<string>, first: World, actions: seq<Action>, a: Action, e: Exec)
    requires Placed(scripts, first, actions) && CanEnd(Play(scripts, first, actions), a)
    requires var w := Play(scripts, first, actions);
             var s := w.sessions[a.session];
             e in Executed(RunCommands(s.prior, s.before, s.commands, a.outcomes), s.before, w.tree, s.begin, w.steps)
    ensures RanIn(scripts, first, actions + [a], e)
  {
    var w := Play(scripts, first, actions);
    var s := w.sessions[a.session];
    assert BeganAt(scripts, first, actions, a.session, s);
    var r :| r in RunCommands(s.prior, s.before, s.commands, a.outcomes) && !r.reused
             && e == Exec(r.command, s.before, w.tree, r.ok, r.completedAt, s.begin, w.steps);
    ResultIsOutcome(s.prior, s.before, s.commands, a.outcomes, r);
    TreeEarlier(scripts, first, actions, a, s.begin);
    TreeEarlier(scripts, first, actions, a, |actions|);
    assert actions[..|actions|] == actions;
  }

  lemma PlaceOneMore(scripts: Fingerprint -> set<string>, first: World, actions: seq<Action>, a: Action)
    requires Placed(scripts, first, actions)
    ensures Placed(scripts, first, actions + [a])
  {
    var w, next := Play(scripts, first, actions), Play(scripts, first, actions + [a]);
    assert (actions + [a])[..|actions|] == actions;
    assert next == Act(scripts, w, a);
    forall id | id in next.sessions ensures BeganAt(scripts, first, actions + [a], id, next.sessions[id]) {
      if a.BeginQuality? && a.session == id {
        TreeEarlier(scripts, first, actions, a, |actions|);
        assert actions[..|actions|] == actions;
      } else {
        BeganEarlier(scripts, first, actions, a, id, w.sessions[id]);
      }
    }
    forall e | e in next.history ensures RanIn(scripts, first, actions + [a], e) {
      if e in w.history { RanEarlier(scripts, first, actions, a, e); }
      else { NewExecution(scripts, first, actions, a, e); }
    }
  }

  lemma {:induction false} PlacedAlways(scripts: Fingerprint -> set<string>, tree: Fingerprint, now: int,
                                        actions: seq<Action>)
    ensures Placed(scripts, Start(tree, now), actions)
  {
    if actions != [] {
      var n := |actions| - 1;
      PlacedAlways(scripts, tree, now, actions[..n]);
      PlaceOneMore(scripts, Start(tree, now), actions[..n], actions[n]);
      assert actions[..n] + [actions[n]] == actions;
    }
  }

  /** The tree was this one at every action from one to the other. */
  ghost predicate Throughout(scripts: Fingerprint -> set<string>, first: World, actions: seq<Action>, begin: nat,
                             end: nat, f: Fingerprint)
    requires end <= |actions|
  {
    forall k :: begin <= k <= end ==> TreeAt(scripts, first, actions, k) == f
  }

  /** No edit between them made it another. */
  predicate NoEditTo(actions: seq<Action>, begin: nat, end: nat, f: Fingerprint)
    requires end <= |actions|
  {
    forall k :: begin <= k < end && actions[k].Edit? ==> actions[k].tree == f
  }

  lemma {:induction false} ThroughoutExactly(scripts: Fingerprint -> set<string>, first: World, actions: seq<Action>,
                                             begin: nat, end: nat, f: Fingerprint)
    requires begin <= end <= |actions| && TreeAt(scripts, first, actions, begin) == f
    ensures Throughout(scripts, first, actions, begin, end, f) <==> NoEditTo(actions, begin, end, f)
  {
    if begin < end {
      ThroughoutExactly(scripts, first, actions, begin, end - 1, f);
      assert actions[..end][..end - 1] == actions[..end - 1];
      assert Play(scripts, first, actions[..end])
          == Act(scripts, Play(scripts, first, actions[..end - 1]), actions[end - 1]);
      assert TreeAt(scripts, first, actions, end)
          == if actions[end - 1].Edit? then actions[end - 1].tree else TreeAt(scripts, first, actions, end - 1);
    }
  }

  /** Whatever the edits, the clock and the interleaved quality actions were: when the gate
      accepts, every command that level "full" requires of this very tree succeeded within the
      last six hours, in a session that began and ended on this tree. The tree was this one
      throughout that session if and only if no edit in between made it another. */
  lemma GateNeverLaundersStaleness(scripts: Fingerprint -> set<string>, tree: Fingerprint, now: int,
                                   actions: seq<Action>, command: string)
    returns (e: Exec)
    requires var w := Play(scripts, Start(tree, now), actions);
             GateAccepts(w.stored, w.tree, w.now) && command in Commands(Full, scripts(w.tree))
    ensures var w := Play(scripts, Start(tree, now), actions);
            && e in w.history && e.command == command && e.ok && Fresh(e.completedAt, w.now)
            && e.before == w.tree && e.after == w.tree && RanIn(scripts, Start(tree, now), actions, e)
            && (Throughout(scripts, Start(tree, now), actions, e.begin, e.end, w.tree)
                <==> NoEditTo(actions, e.begin, e.end, w.tree))
  {
    InvAlways(scripts, tree, now, actions);
    PlacedAlways(scripts, tree, now, actions);
    var w := Play(scripts, Start(tree, now), actions);
    var stored := w.stored.value;
    assert PassedSince(stored.commands, command, stored.completedAt);
    var c :| c in stored.commands && c.command == command && c.ok && stored.completedAt <= c.completedAt;
    assert Real(c, w.tree, w.history, w.now);
    e :| e in w.history && StandsFor(c, w.tree, e);
    ThroughoutExactly(scripts, Start(tree, now), actions, e.begin, e.end, w.tree);
  }

  /** An edit that is undone within the session goes unseen: the gate accepts although the tree
      was another one meanwhile, and nothing was ever executed but then. */
  lemma UndoneEditIsAccepted(scripts: Fingerprint -> set<string>, f: Fingerprint, g: Fingerprint)
    requires f != g
    ensures var actions := [BeginQuality(0, Full), Edit(g), Edit(f), EndQuality(0, [Outcome(true, 0, 0)], 0)];
            var w := Play(scripts, Start(f, 0), actions);
            && GateAccepts(w.stored, w.tree, w.now) && w.tree == f && w.history != {}
            && forall e :: e in w.history ==>
                 e.begin <= e.end <= |actions| && !Throughout(scripts, Start(f, 0), actions, e.begin, e.end, f)
  {
    var actions := [BeginQuality(0, Full), Edit(g), Edit(f), EndQuality(0, [Outcome(true, 0, 0)], 0)];
    var first, outcomes := Start(f, 0), [Outcome(true, 0, 0)];
    PlayFour(scripts, first, actions);
    assert TreeAt(scripts, first, actions, 2) == g;
    PassingFullRunAcceptedExactly(None, scripts(f), f, outcomes, 0, 0, 0);
    var command := Commands(Full, scripts(f))[0];
    var results := RunCommands(None, f, [command], outcomes);
    assert results == [CommandEvidence(command, true, 0, 0, false)] + RunCommands(None, f, [], []);
    assert results[0] in results;
    assert Exec(command, f, f, true, 0, 0, 3) in Executed(results, f, f, 0, 3);
  }

  lemma PlayFour(scripts: Fingerprint -> set<string>, first: World, actions: seq<Action>)
    requires |actions| == 4
    ensures Play(scripts, first, actions[..2]) == Act(scripts, Act(scripts, first, actions[0]), actions[1])
    ensures Play(scripts, first, actions)
            == Act(scripts, Act(scripts, Play(scripts, first, actions[..2]), actions[2]), actions[3])
  {
    assert actions[..4] == actions && actions[..4][..3] == actions[..3] && actions[..3][..2] == actions[..2];
    assert actions[..2][..1] == actions[..1] && actions[..1][..0] == [];
    assert Play(scripts, first, actions[..1]) == Act(scripts, first, actions[0]);
  }

  /** Conversely, a full action whose commands all pass on an unchanged tree is accepted
      exactly as long as its oldest result is at most six hours old. */
  lemma PassingFullRunAcceptedExactly(prior: Option<Evidence>, scripts: set<string>, f: Fingerprint,
                                      outcomes: seq<Outcome>, mergeAt: int, endAt: int, now: int)
    requires |outcomes| == |Commands(Full, scripts)|
    requires forall i :: 0 <= i < |outcomes| ==> outcomes[i].ok
    ensures var results := RunCommands(prior, f, Commands(Full, scripts), outcomes);
            && results != []
            && (GateAccepts(Some(Produced(prior, Full, Commands(Full, scripts), f, f, outcomes, mergeAt, endAt)), f,
                            now)
                <==> Fresh(Oldest(results), now))
  {
    var command := Commands(Full, scripts)[0];
    var result := RunCommand(prior, f, command, outcomes[0]);
    assert Commands(Full, scripts) == [command];
    assert RunCommands(prior, f, [command][1..], outcomes[1..]) == [];
    assert RunCommands(prior, f, [command], outcomes) == [result];
    assert [result][1..] == [] && AllOk([result]);
  }
}
