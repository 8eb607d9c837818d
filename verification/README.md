# pi-next: a verified model of its kernel

pi-next claims work items, runs workers on them, watches the workers' event streams, checks
and archives what they produce, and shares its repository with other agents. This project
models the parts of it that carry promises over whole runs and proves those promises.

| module | models |
|---|---|
| `LineStream`, `WorkerTelemetry`, `WorkerActivity` | splitting a worker's stream into lines while it arrives, and the two parsers fed by it |
| `Monitor`, `RunCancellation` | the polling monitor with its timer, its run in flight, stop, restart, abort and backoff |
| `QualityEvidence` | cached results of quality commands and the archive gate that trusts them |
| `VerificationReport` | computing, writing and re-reading the verification report |
| `Roadmap` | dependency-ordered selection on the roadmap |
| `IssueCandidates` | the candidate shortlist with its windowed, batched lease search |
| `Loop` | the claim loop with its bounded exclusion list, yielding, and containment |
| `LifecycleLock` | the directory lock, one file operation at a time |
| `MainRefresh` | refreshing main and removing a completed checkout, over a commit graph |
| `PlanText`, `PlanDocument`, `PlanLayout`, `PlanMarking`, `PlanFix` | the plan document as text: its readers, its validator and its edits |
| `PerformanceRecords`, `IssueMetrics` | keyed, bounded records and metrics |
| `BootstrapPipeline` | the order and the judgement of a bootstrap run |
| `Text`, `Sets`, `InsertionMap` | string trimming, counting and a map in insertion order |

Code that updates fields, files or lists in place is modelled by classes and methods with
loops; each is proved equal to a specification function, and the results below are about
those functions over every input, every run or every interleaving.

## What the code does not do

These promises of the documentation, or natural expectations, are false of the code. The
model keeps the code as it is; a lemma gives the failing inputs, and the exact condition is
proved for each.

- A push that makes the text pending from the last line longer than 256 Ki characters drops
  the head of that text. What is read then differs from the whole text, unless only the `\r`
  of a leading separator was dropped. A first chunk over the limit so loses the session
  header if and only if what is retained of the chunk holds none, although
  extensions/pi-next/worker-telemetry.ts:230-236 says that it is never lost.
- A scheduler call that is aborted and rejects while the monitor was started again leaves the
  monitor marked as running. If its timer is spent by then nothing would ever check again,
  otherwise that timer still begins a check; such a run is given.
- Stopping and starting again while a run is still ending is undone when the run ends.
- A `commit:` acceptance criterion counts as mechanical, so its reviews are dropped, but
  nothing evaluates it: it can never be proven. Which criteria can be is characterised: one
  that runs or greps if its command succeeds, any other if it is not external and a review
  could be concrete evidence for it.
- An edit that is undone before a quality action ends goes unseen. What the archive gate
  accepts was executed in an action that began and ended on the tree; the tree was the same
  throughout that action if and only if no edit within it made it another.
- A criterion or evidence text whose last piece after a pipe is a verdict word defeats the
  archive of a report whose status is PASS.
- An issue whose priority is not configured sorts before all others, yet no group offers it.
  A queue with a free issue is reported as exhausted if and only if every issue of a
  configured priority was read as leased, whatever the mixture of priorities.
- The claim loop may run forever when more than 100 issues are eligible: its exclusion list
  forgets the oldest conflict.
- A claim leaves a lease that the stored state does not name if and only if the lease of the
  claimed issue cannot be released and the issue is no longer eligible or cannot be handed
  over. The error names that issue, and a run without such a claim holds nothing else.
- Two contenders for the lifecycle lock that read the same dead owner can both take over. A
  run keeps them apart if and only if no takeover in it removes a live contender's directory.
- A crash between making the lock directory and writing its record, or a write of the record
  that fails, loses the lock for good if and only if no contender that read an earlier record
  can still take over.
- Workspace cleanup checks only the first parent of a cleanup commit: a merge with that
  subject loses the work of every other parent that is not part of main.
- Marking a task done marks the first unchecked task if and only if no extra space follows
  its box; otherwise a later task may be checked off. A task that mentions the log heading
  attracts log entries.
- A log entry is logged as given, wherever it goes, if and only if none of `$$`, `$&`, `` $` ``,
  `$'`, `$1` and `$01` stands in it. The pattern has one group, so `$2` and `$5` stay.
- Merging the same batch again may change the tracked records: a batch that is merged into
  500 records and holds the oldest of them does. It is stable if and only if the cap drops
  none of the batch's keys.

## Model

| member | source | states |
|---|---|---|
| LineStream.SplitResumes | extensions/pi-next/worker-telemetry.ts:248-256 | splitting a text equals splitting any beginning of it, keeping the last piece, and splitting that piece with the remainder, also when the cut falls inside `\r\n` |
| LineStream.PushAllDelivers | extensions/pi-next/worker-telemetry.ts:248-256 | after any pushes within the limit the lines delivered and the pending text are the split of everything received |
| LineStream.ChunkingDoesNotMatter | extensions/pi-next/worker-telemetry.ts:240-275 | for every line consumer that ignores empty lines, push then finish ends in the state of reading the whole text at once, for every division into chunks within the limit |
| LineStream.SnapshotIsBatchPrefix | extensions/pi-next/worker-telemetry.ts:258-268 | the state between pushes is that of reading the text up to its last newline at once |
| LineStream.DroppedHeadExact | extensions/pi-next/worker-telemetry.ts:250-252 | dropping the head of the pending text leaves the lines unchanged if and only if only the `\r` of a separator is dropped |
| LineStream.PushLosesTextExactly | extensions/pi-next/worker-telemetry.ts:248-256 | a push splits exactly what was pending and pushed if and only if that fits the limit, or exceeds it by the `\r` of a leading separator |
| LineStream.FinishReadsReceived | extensions/pi-next/worker-telemetry.ts:248-274 | whatever was dropped on the way, every line consumer ends where reading the received lines ends |
| LineStream.StreamLosesTextExactly | extensions/pi-next/worker-telemetry.ts:248-274 | over every stream the lines received are the split of the whole text if and only if every push fits the limit or exceeds it by the `\r` of a leading separator only |
| WorkerTelemetry.TelemetryAccumulator.AcceptEvent | extensions/pi-next/worker-telemetry.ts:117-177 | the in-place accumulator moves by the specification's step for every event and keeps its codec |
| WorkerTelemetry.TelemetryAccumulator.AcceptEnd | extensions/pi-next/worker-telemetry.ts:157-176 | the end of a tool call consumes its start, records or recovers a failure, within the caps |
| WorkerTelemetry.ParseWorkerTelemetry | extensions/pi-next/worker-telemetry.ts:224-228 | the batch loop reports exactly the fold of the events over the split text |
| WorkerTelemetry.IncrementalWorkerTelemetryParser.Push | extensions/pi-next/worker-telemetry.ts:248-256 | a push moves the parser by the specification's push and keeps its invariant |
| WorkerTelemetry.IncrementalWorkerTelemetryParser.Snapshot | extensions/pi-next/worker-telemetry.ts:258-268 | a snapshot reports on the complete lines and changes nothing |
| WorkerTelemetry.IncrementalWorkerTelemetryParser.Finish | extensions/pi-next/worker-telemetry.ts:270-274 | finish consumes the pending line once and reports |
| WorkerTelemetry.ChunkedReportIsBatchReport | extensions/pi-next/worker-telemetry.ts:207-275 | the report after any chunking within the limit is the batch report of the whole text |
| WorkerTelemetry.SnapshotReportIsBatchReport | extensions/pi-next/worker-telemetry.ts:258-268 | every mid-stream report is the batch report of the text up to its last newline |
| WorkerTelemetry.OverlongChunkLosesHeader | extensions/pi-next/worker-telemetry.ts:230-256 | a first chunk over the limit whose text holds a session header is reported unavailable if and only if what is retained of it holds none; the batch parser reports on it |
| WorkerTelemetry.HeaderBeforeNoiseIsLost | extensions/pi-next/worker-telemetry.ts:230-256 | every header line that is followed in the same chunk by a text of the limit's length without a brace is lost |
| WorkerTelemetry.ReportReadsReceived | extensions/pi-next/worker-telemetry.ts:248-274 | over every stream, oversized pushes included, the report is that of the lines received, unavailable if and only if none of them is a session header |
| WorkerTelemetry.FailuresAccountedFor | extensions/pi-next/worker-telemetry.ts:157-176 | over every stream the reported failures are its first hundred, recoveries name observed failures, and never more failures are recovered or open than were observed |
| WorkerTelemetry.ReportIsTally | extensions/pi-next/worker-telemetry.ts:117-176 | over every stream the report is a tally of the events after the first session header: usage is their sum, rounds, calls and results are their numbers, the model is the last one named, and complete means that the agent ended |
| WorkerTelemetry.ReportIsLookup | extensions/pi-next/worker-telemetry.ts:117-222 | over every stream the report is what can be looked up in the events after the first session header: its status, the sums and numbers, the model, the first hundred failures as observed with the call each belongs to, and each recovered fingerprint once; without a header it is unavailable and empty |
| WorkerTelemetry.UsageIsSum | extensions/pi-next/worker-telemetry.ts:136-147 | the usage is the sum of each figure by itself |
| WorkerActivity.IncrementalWorkerActivityParser.Push | extensions/pi-next/worker-activity.ts:567-575 | a push tells the listeners exactly what the specification's push tells them |
| WorkerActivity.IncrementalWorkerActivityParser.Parse | extensions/pi-next/worker-activity.ts:582-649 | parsing a line updates the start map, the counters and the last key, and calls the listeners, as specified |
| WorkerActivity.IncrementalWorkerActivityParser.Finish | extensions/pi-next/worker-activity.ts:577-580 | finish parses the pending line once |
| WorkerActivity.CallsAreChunkingIndependent | extensions/pi-next/worker-activity.ts:567-649 | two divisions of the same text within the limit make the same calls in the same order |
| WorkerActivity.FeedStaysBounded | extensions/pi-next/worker-activity.ts:601-648 | over every stream the caps on events, deltas and remembered tool starts hold, call ids stay distinct and no event repeats its predecessor |
| WorkerActivity.CallsAreLookup | extensions/pi-next/worker-activity.ts:582-649 | over every stream in which fewer than 256 named calls are open whenever one starts, the listeners are told exactly what can be looked up: every record, every start, up to 20000 deltas and 300 events, each event with the call it belongs to, none with the key of the one before |
| WorkerActivity.KeyExactly | extensions/pi-next/worker-activity.ts:637-639 | two events have the same key if and only if they agree in kind, summary and run, unless one of these texts holds the separator |
| RunCancellation.RunRegistry.Unregister | extensions/pi-next/run-cancellation.ts:24-36 | an entry is cleared only while it belongs to the unregistering controller |
| RunCancellation.RunRegistry.AbortRun | extensions/pi-next/run-cancellation.ts:48-53 | answers true exactly when a registered controller was not yet aborted, and aborts that one only |
| Monitor.PiNextMonitor.Start | extensions/pi-next/monitor.ts:111-120 | starting moves the whole monitor, its timers and its registry as the state machine's start |
| Monitor.PiNextMonitor.Stop | extensions/pi-next/monitor.ts:122-135 | stopping moves them as the state machine's stop |
| Monitor.PiNextMonitor.Fire | extensions/pi-next/monitor.ts:218-226 | a timer that fires begins a check as the state machine does |
| Monitor.PiNextMonitor.CheckNow | extensions/pi-next/monitor.ts:141-147 | a check begins exactly when the monitor runs and none is in flight |
| Monitor.PiNextMonitor.DiscoverySucceeded | extensions/pi-next/monitor.ts:148-195 | discovery resolves: the backoff is reset, and a run is launched, under the next run id, if and only if there is a candidate and no stop was requested; otherwise poll again or report the stop |
| Monitor.PiNextMonitor.DiscoveryFailed | extensions/pi-next/monitor.ts:197-214 | discovery fails: backoff or stop |
| Monitor.PiNextMonitor.SchedulerResolved | extensions/pi-next/monitor.ts:180-195 | the scheduler call resolves: unregister, then poll or stop |
| Monitor.PiNextMonitor.SchedulerRejected | extensions/pi-next/monitor.ts:180-214 | the scheduler call rejects: unregister, then back off or stop |
| Monitor.InvAlways | extensions/pi-next/monitor.ts:111-227 | over every interleaving at most one check is in flight and one timer armed, running excludes a requested stop, the run in flight is registered and a stop has aborted it, and launches equal wake-ups |
| Monitor.RunIdsNeverRepeat | extensions/pi-next/monitor.ts:166-178 | no two launches of any run share a run id |
| Monitor.LaunchedExactly | extensions/pi-next/monitor.ts:148-178 | for every event: a run is launched if and only if a discovery that is waited for finds a candidate and no stop was requested |
| Monitor.DueExactly | extensions/pi-next/monitor.ts:111-227 | for every event, when the next check is due: at once after a start, the poll interval after a check that ends well, the doubled delay after one that fails, under a running monitor only, and never after a stop |
| Monitor.RunningExactly | extensions/pi-next/monitor.ts:111-196 | for every event, whether the monitor runs: only a start, a stop and the end of an aborted run change that |
| Monitor.StopRequestedExactly | extensions/pi-next/monitor.ts:111-196 | for every event, whether a stop was requested |
| Monitor.ChecksExactly | extensions/pi-next/monitor.ts:141-215 | for every event, whether a check is in flight: it begins under a running monitor only, and ends with its discovery or its run |
| Monitor.ActiveRunExactly | extensions/pi-next/monitor.ts:148-215 | for every event, which run the status displays |
| Monitor.ErrorExactly | extensions/pi-next/monitor.ts:111-215 | for every event, whether the status displays an error |
| Monitor.AbortedExactly | extensions/pi-next/monitor.ts:122-135 | for every event, which runs are aborted: the displayed one by a stop, and a registered one on request |
| Monitor.ConfiguredDelays | extensions/pi-next/monitor.ts:53-104 | the delays in use: those configured if in range, or the defaults |
| Monitor.ConsistentExactly | extensions/pi-next/monitor.ts:180-215 | fields, timer and displayed status agree throughout a run if and only if no aborted scheduler call rejects while the monitor is marked as running |
| Monitor.StoppedStaysQuiet | extensions/pi-next/monitor.ts:122-135 | after a stop no timer is armed and nothing is launched until the next start |
| Monitor.RestartSurvivesExactly | extensions/pi-next/monitor.ts:183-196 | a resolving run leaves the monitor running if and only if it was not aborted |
| Monitor.RestartWhileEndingIsLost | extensions/pi-next/monitor.ts:187-196 | stop and start while a run ends always leave the monitor stopped with a timer armed for nothing |
| Monitor.WedgedMonitorNeverChecks | extensions/pi-next/monitor.ts:197-199 | after an aborted call rejects under a running monitor with a spent timer, nothing but a stop or a check by hand ever checks again |
| Monitor.WedgedExactly | extensions/pi-next/monitor.ts:197-226 | after such a rejection no unattended run checks again if and only if no timer was left; one that was left begins a check |
| Monitor.WedgeIsReachable | extensions/pi-next/monitor.ts:111-226 | every fresh monitor has a run that ends so: stopped and started during a run, with the new timer spent before the run rejects |
| Monitor.RejectedRunStaysDisplayed | extensions/pi-next/monitor.ts:200-207 | a rejected run that was not aborted stays displayed as the active run |
| Monitor.BackoffClosedForm | extensions/pi-next/monitor.ts:62-64 | over every run and configuration the delay is the minimum of the maximum and the poll interval doubled once per further failed check since the last discovery that succeeded or the last start |
| Monitor.FailureArmsBackoff | extensions/pi-next/monitor.ts:200-209 | a failed check of a running monitor arms its timer after exactly that delay, which is positive and at most the maximum |
| QualityEvidence.EvidenceStore.Quality | extensions/pi-next/tools-check.ts:155-309 | a command is reused, with its time and duration, if and only if the first record that it passed is on the tree found at the start, not from the future and at most six hours old; otherwise it is run, up to the first failure; the evidence passes if and only if the tree stayed, and each command has passed; it keeps one record for each command: its result, or a prior record on the same tree if and only if the command still counts as passed |
| QualityEvidence.GateNeverLaundersStaleness | extensions/pi-next/tools-check.ts:86-101 | over every history of edits, ticks and interleaved quality actions, when the archive gate accepts, each command required for level full really succeeded within the last six hours in a quality action that began and ended on exactly that tree; the tree was the same throughout that action if and only if no edit within it made it another |
| QualityEvidence.UndoneEditIsAccepted | extensions/pi-next/tools-check.ts:155-309 | an edit undone within the action goes unseen: the gate accepts although nothing was executed while the tree stayed the same |
| QualityEvidence.PassingFullRunAcceptedExactly | extensions/pi-next/commit-safety.ts:163-175 | a full action whose commands pass on an unchanged tree is accepted if and only if its oldest result is at most six hours old and not in the future |
| VerificationReport.Verify | extensions/pi-next/tools-check.ts:470-580 | the issue's criteria that no other than a mechanical plan criterion has the wording of are missing, in order; PASS if and only if authority was read, there are criteria, none is missing and each is proven, by its command or by the first review for it; FAIL if and only if one is missing or refuted; each row shows its criterion, its verdict and what decided it |
| VerificationReport.PassNeedsEvidence | extensions/pi-next/acceptance-verification.ts:232-310 | a criterion that no command decides passes only on concrete evidence of a submitted review; its checkbox makes no difference, and an external criterion cannot pass |
| VerificationReport.CommitCriterionNeverProven | extensions/pi-next/acceptance-verification.ts:232-251 | a `commit:` criterion is proven under no evidence at all |
| VerificationReport.CanBeProvenExactly | extensions/pi-next/acceptance-verification.ts:232-310 | some reviews make a criterion count as proven if and only if it is not finally external and its `run:` or `grep:` command succeeds, or it is no `commit:` criterion, not external, and some review would be concrete evidence |
| VerificationReport.AuthorityErrors | extensions/pi-next/acceptance-verification.ts:319-351 | the list of errors is empty if and only if policy, authority, issue, fingerprint and table are all in order |
| VerificationReport.CellBadExactly | extensions/pi-next/tools-check.ts:82-84 | an escaped table cell is taken for a verdict if and only if its text, after its last pipe, is a bare verdict word |
| VerificationReport.ScanFindsExactly | extensions/pi-next/acceptance-verification.ts:347-349 | the archive's scan of a written table finds a verdict if and only if a row's verdict is not PASS or a cell ends in a verdict word |
| VerificationReport.ArchiveAcceptsExactly | extensions/pi-next/commit-safety.ts:112-152 | a written report, re-read for the same issue, fingerprint and tree, is accepted if and only if authority was read, the plan has every criterion of the issue and at least one, each is proven, and no cell ends in a verdict word |
| VerificationReport.PassingReportCanBeRefused | extensions/pi-next/acceptance-verification.ts:347-349 | a passing command whose text ends in a pipe and a verdict word gives status PASS and a report that the archive refuses |
| Roadmap.DeclaredDependencies | src/bootstrap/roadmap.ts:66-124 | the scan fails if and only if a declaration is unclear or dependencies are both named and denied, and otherwise yields the named issues without the issue itself, ascending |
| Roadmap.AscendingMembers | src/bootstrap/roadmap.ts:122-123 | the dependencies are exactly the named ones, each once, in strictly ascending order |
| Roadmap.AuthorityCache.Ask | src/bootstrap/roadmap.ts:134-150 | an issue is asked for at most once; earlier answers stay |
| Roadmap.AuthorityCache.OpenDependencies | src/bootstrap/roadmap.ts:163-182 | the dependencies that the roadmap does not close, or outside it the authority's answer leaves open, or the first authority error, for the answers left in the cache |
| Roadmap.ResolveNextIssue | src/bootstrap/roadmap.ts:184-207 | empty and duplicate roadmaps are refused; otherwise the issue selected is open, not refused by a label, and everything it declares is closed in the roadmap or, outside it, by the authority's answer; every issue before it is skipped for its true reason, a blocked one with exactly its open dependencies, ascending; an error names what is wrong with the first issue that is neither; for a provider whose answers do not change, the result is the selection from all its answers, whatever the cache |
| Roadmap.CacheDoesNotMatter | src/bootstrap/roadmap.ts:134-207 | a selection decided on given answers only is the selection from all answers of the provider |
| Roadmap.SelectionIsUnique | src/bootstrap/roadmap.ts:197-206 | that description fits exactly one result, the one of the plain scan without a cache |
| Roadmap.SelectedIsFree | src/bootstrap/roadmap.ts:197-206 | on a clean roadmap nothing is selected if and only if every open issue waits for another, and what is selected waits for none |
| Roadmap.DrainInOrder | src/bootstrap/roadmap.ts:184-207 | select, close and repeat runs in dependency order and stops only where every issue left waits for another one left |
| Roadmap.DependenciesFirst | src/bootstrap/roadmap.ts:184-207 | in such an order every dependency that was open comes before the issue that needs it |
| Roadmap.DrainsExactlyWhenAcyclic | src/bootstrap/roadmap.ts:184-207 | repeated selection closes every open issue, in exactly as many steps as there were, if and only if the dependencies among them are acyclic |
| IssueCandidates.ComparatorIsWeakOrder | extensions/pi-next/issue-candidates.ts:366-374 | the comparator is a strict order whose ties are an equivalence, so the sort is well defined |
| IssueCandidates.SortSorts | extensions/pi-next/issue-candidates.ts:366-374 | the order of eligible issues is sorted by priority, readiness and update, and loses or invents none |
| IssueCandidates.SortIsStable | extensions/pi-next/issue-candidates.ts:366-374 | issues that compare equal keep their order |
| IssueCandidates.ReadBatch | extensions/pi-next/issue-candidates.ts:386-394 | a batch fails if and only if one of its reads fails, and otherwise adds exactly the freshly leased issues |
| IssueCandidates.FindAvailable | extensions/pi-next/issue-candidates.ts:379-397 | for every window and concurrency the search in windows and batches finds what the plain scan finds, and fails if and only if a failing read lies before the end of the window that holds the first unleased issue |
| IssueCandidates.Groups | extensions/pi-next/issue-candidates.ts:402-419 | there is a group if and only if an eligible issue of a configured priority was not seen leased; there is one for each such priority, in order, with its first issues up to the limit |
| IssueCandidates.CandidateShortlist | extensions/pi-next/issue-candidates.ts:335-485 | unavailable, exhausted and candidate are decided exactly; a candidate always carries the number of the first free issue, the groups and the issues seen leased |
| IssueCandidates.ChosenComesFirst | extensions/pi-next/issue-candidates.ts:358-397 | the chosen issue is admissible and free, no admissible free issue comes before it, and one is chosen whenever there is one |
| IssueCandidates.ExcludedIsNeverChosen | extensions/pi-next/issue-candidates.ts:313-322 | an issue excluded for this run is never chosen |
| IssueCandidates.AdmitsExactly | extensions/pi-next/issue-candidates.ts:341-365 | an issue may be chosen if and only if it is valid, the last that the authority says of it is that it is eligible, this run does not exclude it, and it was updated after it was deferred, if it was |
| IssueCandidates.ChosenRanksFirst | extensions/pi-next/issue-candidates.ts:366-397 | the chosen issue has the first priority among the free ones, of these is ready if any is, and of these was updated last |
| IssueCandidates.IndexOfMeans | extensions/pi-next/issue-candidates.ts:366-369 | a priority's place is its first among those configured, or minus one |
| IssueCandidates.OffersExactly | extensions/pi-next/issue-candidates.ts:402-411 | a group offers the first issues of its priority not seen leased: three, five, three, and two of any further priority |
| IssueCandidates.ExhaustedExactly | extensions/pi-next/issue-candidates.ts:476-485 | when every admissible issue has a configured priority, the queue is called exhausted if and only if none of them is free |
| IssueCandidates.UnconfiguredLooksExhausted | extensions/pi-next/issue-candidates.ts:402-419 | when none has, it is called exhausted although a free issue was found |
| IssueCandidates.WronglyExhaustedExactly | extensions/pi-next/issue-candidates.ts:402-485 | for every mixture of priorities, a queue with a free issue is called exhausted if and only if every admissible issue of a configured priority was read as leased |
| IssueCandidates.WronglyExhaustedHidesUnconfigured | extensions/pi-next/issue-candidates.ts:402-485 | every free issue is then one of an unconfigured priority |
| IssueCandidates.UnconfiguredSortsFirst | extensions/pi-next/issue-candidates.ts:366-369 | an issue without a configured priority comes before every issue with one |
| Loop.SkipList.RecordSchedulerSkip | extensions/pi-next/production-scheduler-state.ts:7-31 | the caller's list becomes the old one without the issue, with it last, cut to its newest hundred |
| Loop.ConflictsBoundedExactly | extensions/pi-next/loop.ts:511-602 | however conflicts fall and whatever was skipped before, a call makes boundedly many claims if and only if at most 100 issues are eligible |
| Loop.FirstPicksDistinct | extensions/pi-next/loop.ts:568-602 | the first 101 issues that a call tries are distinct |
| Loop.NothingRetried | extensions/pi-next/loop.ts:568-602 | when eligible and already skipped issues number at most 100 together, no skipped issue is tried again and each conflict shrinks what is left by one |
| Loop.Claimer.YieldClaimedIssue | extensions/pi-next/loop.ts:352-383 | the lease is released before the yield is stored; then the issue is deferred as yielded, last and once, all other deferrals stay in their order, nothing is active, and the issue is excluded; if the release fails, lease and stored state are unchanged |
| Loop.Claimer.Reconcile | extensions/pi-next/loop.ts:424-440 | a lease that live authority confirms or recovers is held afterwards; a missing one, or another owner's, changes nothing |
| Loop.Claimer.Resume | extensions/pi-next/loop.ts:424-502 | from any leases, lost or taken ones included: what canonical state, live authority, eligibility, workspace and release answer decides the result exactly; on return the lease is held as the state names it or was given back; every error leaves the stored state as it was |
| Loop.Claimer.HandOver | extensions/pi-next/loop.ts:604-676 | a claimed issue is activated, in the workspace and with the lease it was given, if and only if it is still eligible and its workspace can be prepared; otherwise it is yielded, given back, or reported with its lease left, as the release answers |
| Loop.Claimer.ClaimLoopIssue | extensions/pi-next/loop.ts:402-678 | from any state and any leases, with at most 100 available issues: the call ends; partial execution state is refused untouched; a complete one is resumed; otherwise each conflict was offered and refused at its turn, and only an available issue that was offered and granted is claimed, and activated, given back as deferred, or reported, as eligibility, workspace and release answer; each outcome fixes the leases relative to those before, and the stored state is the returned one or records exactly the conflicts |
| Loop.Claimer.ClaimNew | extensions/pi-next/loop.ts:511-602 | the retry loop: each conflict was offered by the shortlist under the exclusions of its turn and refused by the lease authority, and the last turn's answers decide the result; what is claimed is available and granted |
| Loop.AnswersDecide | extensions/pi-next/loop.ts:402-678 | the answers of the shortlist, the lease authority and the hand-over leave a call no choice: conflicts, claimed issue and result are determined |
| Loop.YieldedIsNotClaimedAgain | extensions/pi-next/loop.ts:352-383 | over any sequence of calls, an issue that one claimed and gave back is claimed by none after it |
| Loop.OrphansExactly | extensions/pi-next/loop.ts:402-678 | a lease not named by the stored state is made exactly by a claim of an issue that can neither be completed nor released, and goes when its issue is claimed again; resuming changes none |
| Loop.LeavesLeaseExactly | extensions/pi-next/loop.ts:511-676 | an error reports a lease left behind if and only if the claimed issue cannot be released and is no longer eligible or cannot be handed over; it names that issue |
| Loop.LeaseCanBeLeft | extensions/pi-next/loop.ts:624-660 | every run that may claim an issue meets such a case when the issue's workspace and release both fail |
| Loop.HeldExactlyOnReturn | extensions/pi-next/loop.ts:402-678 | on return the lease that the active fields name is held, and no other if and only if the run had no orphaned lease but one of the issue it claimed |
| Loop.OrphansAreReported | extensions/pi-next/loop.ts:402-678 | over any sequence of calls, with leases lost in between, an orphaned lease was one from the start or its issue was claimed in such a case, and the errors name exactly those issues |
| Loop.NothingHeldSilently | extensions/pi-next/loop.ts:402-678 | over any sequence of calls without such a case, a run that began without orphans holds at most what its stored state names, and exactly that after a return |
| Loop.Container.ContainIssueLocalFailure | extensions/pi-next/loop.ts:229-350 | the two durable writes, their order under a crash after either, the release before them, and the refusals |
| Loop.ContainmentUsesOneSlotEach | extensions/pi-next/loop.ts:247-320 | over any sequence of containment calls and claims, crashes included, each contained issue has exactly one deferral, earlier deferrals are untouched, and the remaining slots drop by one per issue that had none, not below zero |
| Loop.ContainmentSettles | extensions/pi-next/loop.ts:283-285 | a finished containment settles the issue: a further call changes nothing, and a call after a crash completes it |
| LifecycleLock.Contender.Acquire | src/bootstrap/lifecycle-lock.ts:80-95 | the retry loop, with any finitely many scheduled actions of others between its file operations, ends with the lock held or the refusal that the contender's place says; all that happened is a run of the protocol in which the contender performed only its own operations; when the others are done, a free lock and one of a dead owner are acquired, and a live, unknown or missing owner refuses with its code |
| LifecycleLock.Contender.ReleaseLock | src/bootstrap/lifecycle-lock.ts:109 | the first release of a held lock removes the directory; further ones do nothing |
| LifecycleLock.InvKeptExactly | src/bootstrap/lifecycle-lock.ts:80-110 | a step keeps at most one live contender inside, shown by the directory, if and only if it is no takeover that removes the directory of a live contender |
| LifecycleLock.RunsExcludeExactly | src/bootstrap/lifecycle-lock.ts:80-110 | over whole runs this holds all along if and only if no takeover in the run removes the directory of a live contender |
| LifecycleLock.FaithfulRunsExclude | src/bootstrap/lifecycle-lock.ts:80-110 | in every run, with crashes anywhere, in which each takeover removes the record that was read, at most one live contender is between making the directory and releasing it |
| LifecycleLock.RunsWithoutTakeoverExclude | src/bootstrap/lifecycle-lock.ts:80-85 | runs without takeovers need no condition |
| LifecycleLock.HarmfulTakeoverBreaksExclusion | src/bootstrap/lifecycle-lock.ts:91-92 | any other takeover lets its contender in beside a live one with its next action |
| LifecycleLock.TakeoverRace | src/bootstrap/lifecycle-lock.ts:88-92 | two contenders that both read the same dead owner end up inside together |
| LifecycleLock.TakeoverRaceIsReachable | src/bootstrap/lifecycle-lock.ts:80-92 | from a free lock that any three contenders are about to take, a run gets two of them inside together |
| LifecycleLock.WedgedForever | src/bootstrap/lifecycle-lock.ts:46-52 | a directory without a record, with nobody inside or able to take over, stays so in every run |
| LifecycleLock.LostExactly | src/bootstrap/lifecycle-lock.ts:46-95 | when the directory stands without a record and nobody is inside, no run ever acquires the lock again if and only if no contender that read an earlier record can still take over |
| LifecycleLock.FailureBeforeRecordExactly | src/bootstrap/lifecycle-lock.ts:80-95 | a crash between making the directory and writing the record, or a failed write of it, loses the lock for good if and only if no other contender can still take over |
| LifecycleLock.LoneFailureWedges | src/bootstrap/lifecycle-lock.ts:80-85 | a contender on its own reaches that by either failure |
| LifecycleLock.CrashWhileHoldingRecovers | src/bootstrap/lifecycle-lock.ts:88-92 | after a crash while holding, a contender on its own takes over |
| MainRefresh.AheadByZero | extensions/pi-next/main-refresh.ts:176-190 | git's count of commits ahead is zero if and only if the commit is an ancestor |
| MainRefresh.Repository.RefreshMainAtIssueBoundary | extensions/pi-next/main-refresh.ts:137-239 | with other agents fast-forwarding between any two commands: it succeeds if and only if local main is part of the origin main fetched, or ahead of it only and still so when pushed; local and origin main move only to descendants; on success local main contains the origin main from before and is part of it now; healing publishes exactly local main, and every failure publishes nothing and leaves local main alone |
| MainRefresh.Repository.PushLost | extensions/pi-next/main-refresh.ts:199-221 | a refused push is reported as divergence only where neither side has the other |
| MainRefresh.IssueBranch.CleanupCompletedIssueWorktree | extensions/pi-next/main-refresh.ts:249-354 | the branch is deleted if and only if the workspace is the expected, clean one without active artifacts, and its tip, or the first parent of its cleanup tip, is part of main; each refusal names what is missing |
| MainRefresh.LosesAtMostTipExactly | extensions/pi-next/main-refresh.ts:311-353 | deleting a branch loses at most its tip if and only if the tip or all its parents are part of main, and nothing if and only if the tip is |
| MainRefresh.CleanupLosesAtMostTip | extensions/pi-next/main-refresh.ts:316-353 | a cleanup whose tip is no merge loses at most the cleanup commit |
| MainRefresh.MergeTipLosesWork | extensions/pi-next/main-refresh.ts:327-333 | any merge with the cleanup subject on an integrated first parent passes, and loses every other parent that is not part of main |
| MainRefresh.CleanupLosesWorkExactly | extensions/pi-next/main-refresh.ts:311-353 | a cleanup that passes loses at most its tip if and only if the tip or every further parent is part of main |
| MainRefresh.AnyOtherCommitCanBeLost | extensions/pi-next/main-refresh.ts:327-333 | any commit that is not part of main is lost by a merge of main and that commit with the cleanup subject |
| PlanDocument.Section | extensions/pi-next/plan-read.ts:68-80 | the index loops return exactly the lines between the first matching heading and the next section |
| PlanDocument.CurrentTask | extensions/pi-next/plan-read.ts:82-108 | the first unchecked task of the section with its block up to the next checkbox |
| PlanDocument.ValidatePlan | extensions/pi-next/plan-read.ts:118-145 | the list of errors is empty if and only if tokens, headings, issue, tasks with their fields, and criteria are all there |
| PlanDocument.ValidExactly | extensions/pi-next/plan-read.ts:108-145 | a plan is valid if and only if both tokens occur, the three headings are lines of it, a line names its issue, it has a task, each task names files and approach before the next checkbox, and there is a criterion |
| PlanMarking.MarkDone | extensions/pi-next/plan-write.ts:7-26 | the edit of the text: cut out the tasks, check the first matching box, insert the log entry with its `$` patterns expanded, or the error |
| PlanLayout.ReadsDocument | extensions/pi-next/plan-read.ts:68-145 | what every reader and the validator see of a document with its headings in order, part by part |
| PlanLayout.OrdinaryPlanIsCanonical | extensions/pi-next/plan-read.ts:118-127 | any head lines, tasks, criteria and log always make a canonical document when only the section headings have two number signs in a row; the log may hold anything |
| PlanMarking.MarksFirstOpen | extensions/pi-next/plan-write.ts:7-26 | on a canonical document a prefix of the first unchecked line checks that box, logs below the log heading, and changes nothing else |
| PlanMarking.MarksFirstMatch | extensions/pi-next/plan-write.ts:7-26 | on a canonical document exactly the first unchecked line that the prefix fits is checked, the entry goes below the log heading, and without such a line the task is not found |
| PlanMarking.PrefixFitsExactly | extensions/pi-next/tools-update.ts:136-142 | a prefix of the task as read is a prefix of its line if and only if no extra space follows the box |
| PlanMarking.LooseTaskMarksAnother | extensions/pi-next/tools-update.ts:136-145 | for every task with extra space after its box, the tool checks off the first later line that the prefix fits instead, or finds none |
| PlanMarking.MarkToolExactly | extensions/pi-next/tools-update.ts:136-145 | the tool checks off the first unchecked task if and only if no extra space follows its box |
| PlanMarking.MarkToolChecksFirst | extensions/pi-next/tools-update.ts:136-145 | marking through the tool, whatever is logged, checks exactly the first unchecked task; criteria read as before and the plan is as valid as before |
| PlanMarking.MarksDrainThePlan | extensions/pi-next/tools-update.ts:136-145 | marking the current task again and again always succeeds, keeps validity, criteria and the number of lines, and leaves no current task after exactly as many marks as there were unchecked tasks |
| PlanMarking.LogPlacedExactly | extensions/pi-next/plan-write.ts:24-25 | the entry goes below the log heading if and only if nothing above mentions it |
| PlanMarking.MentionMisplacesEntries | extensions/pi-next/plan-write.ts:24-25 | any task that mentions the log heading attracts the entries |
| PlanMarking.PlainEntryIsVerbatim | extensions/pi-next/plan-write.ts:25 | an entry without an active `$` pattern is logged as given, whatever surrounds the heading |
| PlanMarking.DollarEntryIsRewritten | extensions/pi-next/plan-write.ts:25 | an entry with an active pattern is not: where the match and what surrounds it are empty, it comes out shorter |
| PlanMarking.VerbatimExactly | extensions/pi-next/plan-write.ts:25 | an entry is always logged as given if and only if no active pattern stands anywhere in it |
| PlanMarking.PatternIsReplaced | extensions/pi-next/plan-write.ts:25 | each pattern stands for a dollar sign, the match, or what precedes or follows it, and what comes after the pattern is read anew |
| PlanMarking.TextStays | extensions/pi-next/plan-write.ts:25 | text without dollar signs before the rest of an entry stays as it is |
| PlanMarking.HeadingIsInserted | extensions/pi-next/plan-write.ts:24-25 | in every document the entry `$&` is replaced by the log heading |
| PlanFix.AppendsBelowTasks | extensions/pi-next/plan-write.ts:28-39 | the fix lands below the last task, in place of the blank lines there, with its defaults, and everything else stays |
| PlanFix.AppendFixAddsOneTask | extensions/pi-next/plan-write.ts:28-39 | appending a one-line fix to a valid plan keeps it valid, adds exactly one unchecked task after all others, keeps the criteria, and keeps the current task, or makes the fix current if there was none |
| PerformanceRecords.MergeRecords | extensions/pi-next/performance-publication.ts:437-444 | the loop over the map computes the capped, insertion-ordered, last-write-wins merge |
| PerformanceRecords.EvidenceFiles.StagePendingRecord | extensions/pi-next/performance-publication.ts:455-458 | staging merges one record into the pending file and leaves the tracked one |
| PerformanceRecords.LastWriteWins | extensions/pi-next/performance-publication.ts:437-444 | after merging a record its key holds it and every other key what it held before |
| PerformanceRecords.UnionAssociative | extensions/pi-next/performance-publication.ts:437-444 | merging is associative |
| PerformanceRecords.UnionIdempotent | extensions/pi-next/performance-publication.ts:437-444 | merging the same batch again changes nothing |
| PerformanceRecords.MergeLaws | extensions/pi-next/performance-publication.ts:437-444 | below the cap keys are distinct and both laws hold of the capped merge |
| PerformanceRecords.ReMergeStableExactly | extensions/pi-next/performance-publication.ts:437-444 | at any size merging the same batch again changes nothing if and only if none of its keys was dropped by the cap |
| PerformanceRecords.FullFileIsUnstable | extensions/pi-next/performance-publication.ts:437-444 | any full file is changed by merging its oldest record with a new one twice |
| PerformanceRecords.ReMergeCanChange | extensions/pi-next/performance-publication.ts:437-444 | so there are records for which merging the same batch again changes the file |
| PerformanceRecords.EvidenceFiles.PublishPendingEvidence | extensions/pi-next/performance-publication.ts:517-534 | tracked records are flushed first and the pending file goes only after publication succeeded |
| PerformanceRecords.StageThenFlush | extensions/pi-next/performance-publication.ts:455-467 | staging records one by one and flushing once equals merging each record directly |
| PerformanceRecords.ReflushIsHarmless | extensions/pi-next/performance-publication.ts:517-534 | any number of repeated flushes after a crash leaves what one flush leaves |
| IssueMetrics.PromptAddsShare | extensions/pi-next/loop-state.ts:288-324 | a prompt adds its own, never negative, share to every counter |
| IssueMetrics.AddIssuePromptMetrics | extensions/pi-next/loop-state.ts:326-363 | the list after an attributed or unattributed prompt |
| IssueMetrics.MarkIssueDisposition | extensions/pi-next/loop-state.ts:365-398 | the list after a disposition; an earlier reason stays unless a new one is given |
| IssueMetrics.MarkIssueTransition | extensions/pi-next/loop-state.ts:400-435 | the list after a transition, with baselines set once |
| IssueMetrics.RecordIssueTransitionResult | extensions/pi-next/loop-state.ts:457-479 | the list after a result; an issue without a record is left out |
| IssueMetrics.UpdateKeepsInv | extensions/pi-next/loop-state.ts:326-479 | after any update at most twenty records, one per issue, the touched one last, and before it the newest untouched ones, unchanged and in order |
| IssueMetrics.SurvivorsContinue | extensions/pi-next/loop-state.ts:326-479 | a record that survives an update is unchanged unless the update writes it; then its counters only grow, and baselines and the plan size at selection stay as first set |
| IssueMetrics.InvAlways | extensions/pi-next/loop-state.ts:288-479 | over any sequence of updates from the empty list this holds, and no budget baseline exceeds its counter |
| IssueMetrics.UpdateConserves | extensions/pi-next/loop-state.ts:326-479 | every update conserves every counter: the list with what was evicted equals the old list with what the event adds |
| IssueMetrics.TotalsAddUp | extensions/pi-next/loop-state.ts:298-363 | with at most twenty issues and every prompt attributed, per-issue counters add up to the run's |
| IssueMetrics.RecordIsHistory | extensions/pi-next/loop-state.ts:288-479 | with at most twenty issues, after any run there is a record for exactly the issues that some event was about, and it is their history: counters are numbers and sums of its events, disposition, reason and remaining tasks the last given, the plan size the first, repeats the number of each fingerprint, and baselines the counters from before its budget began |
| BootstrapPipeline.ReadyExactly | src/bootstrap/supervisor.ts:198-204 | finalization may begin if and only if the run passed on a candidate not behind origin main, and a pass means complete passing checks on a changed candidate |
| BootstrapPipeline.DispositionExactly | src/bootstrap/supervisor.ts:196-204 | when a run is blocked, repairable, already satisfied, without change, or passed |
| BootstrapPipeline.ImplementationExactly | src/bootstrap/supervisor.ts:196-204 | when the implementation counts as done, failed, exhausted, or already satisfied |
| BootstrapPipeline.BootstrapRun.Implement | src/bootstrap/supervisor.ts:114-158 | whatever the retry policy decides, the implementation runs once and is retried at most once, exactly when the policy says so after the first attempt |
| BootstrapPipeline.BootstrapRun.FirstAttempt | src/bootstrap/supervisor.ts:114-142 | the policy decides on the candidate after the first attempt, and on the issue fetched again only for a completed worker that changed nothing |
| BootstrapPipeline.RetryFollowsPolicy | src/bootstrap/zero-delta-retry-policy.ts:26-43 | the policy in use grants a retry only within the budget, after a completed worker that changed nothing, of an open issue and an uncancelled run |
| BootstrapPipeline.BootstrapRun.RepairIfNeeded | src/bootstrap/supervisor.ts:168-187 | one repair runs if and only if checks failed and it is allowed and supported; the checks reported were taken after it |
| BootstrapPipeline.BootstrapRun.RunBootstrap | src/bootstrap/supervisor.ts:105-204 | for every outcome of workers and checks: the workers launched, the resumption, the implementation, the cancellation, the repair and its result, the checks and the candidate judged are determined by those outcomes; each role runs at most once and in order, only the review after the reported checks and candidate were taken, and a reviewed pass had a passing review |
| BootstrapPipeline.PassesExactly | src/bootstrap/supervisor.ts:105-204 | a run passes if and only if its last checks all pass on a changed candidate, the author of which, if launched, finished or timed out, the run is not cancelled, and a review that is asked for passes |
| BootstrapPipeline.AttemptsExactly | src/bootstrap/supervisor.ts:105-158 | under the policy in use: an implementation runs if and only if the run may implement and nothing was there; it is retried if and only if it completed without a change, the issue is still open, the run is not aborted and a retry is left; and where the first checks come, and what is known then |
| BootstrapPipeline.RestExactly | src/bootstrap/supervisor.ts:159-195 | from the first checks on: when the run is cancelled, repaired and reviewed, which checks and candidate are judged, and when the review passes |

## Left out

- Process spawning, signals, sandboxing, `gh` and `git` themselves, file-system errors and the network: only the state they change is modelled.
- JSON parsing, hashing, redaction, wording classifiers and the normalisers of stream events are function parameters; comparison of update times is an order on numbers.
- Strings are sequences of Dafny characters; UTF-16 surrogates and partial UTF-8 in chunks are not modelled. Lower-casing of headings is ASCII only, and the line terminators that only regular expressions recognise (a lone carriage return, U+2028, U+2029) are ordinary characters.
- WorkerTelemetry.IncrementalWorkerTelemetryParser.Finish: the report is a value; that the original hands out its own arrays, which later calls could change, is not captured.
- WorkerActivity.IncrementalWorkerActivityParser.Parse: exceptions thrown by listeners are not modelled; the original swallows them.
- Monitor.PiNextMonitor.Start: one monitor owns its host timers; the table of monitors per checkout and the status texts are left out.
- QualityEvidence.GateNeverLaundersStaleness: scripts are read together with the fingerprint; when within its action a command ran is not modelled.
- VerificationReport.Verify: review validation that throws before any row is computed, the candidate review gate and failure dispositions, which only route the next step, are left out.
- VerificationReport.ArchiveAcceptsExactly: header fields are a record, so a field whose value wrapped onto another line is not modelled; the plan's own checkboxes, cited commits and the dirty-tree check of the archive are left out.
- Roadmap.DeclaredDependencies: recognising declarations in Markdown, by regular expressions, happens before the model; it starts from the sequence of recognised declarations.
- IssueCandidates.CandidateShortlist: deadlines and timeouts appear as failed reads; notes and group texts beyond issue numbers are left out, as are the sets read from archived and deferred plans.
- Loop.Claimer.ClaimLoopIssue: the shortlist, the lease authority, worktrees and plan checks are parameters; a claim or release that fails leaves authority as it was; the bound of 100 issues that are eligible and neither completed nor deferred is what `ConflictsBoundedExactly` shows to be needed for the loop to end.
- Loop.Container.ContainIssueLocalFailure: reasons, timestamps and notifications are left out; the metrics it updates are in `IssueMetrics`.
- LifecycleLock.Contender.Acquire: the heartbeat is left out, pids are not reused, a recursive removal is one step, and others interpose finitely many actions, without which the loop need not end.
- MainRefresh.Repository.RefreshMainAtIssueBoundary: the local lock file around it is left out, and nobody else moves this checkout's main meanwhile.
- MainRefresh.CleanupLosesAtMostTip: reachability is judged from main; that the remote issue branch is kept is not counted.
- PlanLayout.OrdinaryPlanIsCanonical: plans written with `\r\n` throughout are not canonical, so the results about canonical documents do not cover them.
- PlanFix.AppendFixAddsOneTask: documents start with a non-space character and their tasks end in a line that does not end in space, above blank lines; the fix, its files and its approach are one line each.
- PlanDocument.ValidatePlan: the issue line is recognised by a parameter, one line at a time, and the files and approach of a task are checked for but not parsed.
- IssueMetrics.TotalsAddUp: usage and cost are exact numbers here and in `WorkerTelemetry`; the original adds floating-point costs, whose sums may differ by rounding.
- IssueMetrics: timestamps, reasons' trimming and the soft-budget warning flag are left out; a budget initialisation is stored like any other update.
- BootstrapPipeline.BootstrapRun.RunBootstrap: worktree and dependency setup, prompts, progress events and errors that end the run before its report are left out.
- `repairPlanStructure`, `reconcileWorkspacePlan`, `LocalIssueLeaseAuthority`, user interface, logs and telemetry counters: no invariant beyond bounds, or swamped by regular expressions.
- The finalizer, the lease kernel and the lifecycle scheduler are not part of this model; their outcomes are parameters.
