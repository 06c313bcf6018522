# Epitelesis: a verified model of the subprocess lifecycle

This project models the part of epitelesis that owns a child process from spawn to final evidence, and
proves what it promises over every environment.

* `capture.dfy`: one capture stream (`CaptureStream`), the fair pump, and the stream invariant.
* `lifecycle.dfy`: the owned child, the observations, and the history of lifecycle events with the law
  it must obey.
* `classify.dfy`: from observations and evidence to one result.
* `execute.dfy`, `execute_theorems.dfy`, `execute_causes.dfy`, `execute_answers.dfy`,
  `execute_time.dfy`: the capturing supervisor. The answers file says what becomes of every answer of the
  environment, in both directions.
* `managed.dfy`, `managed_theorems.dfy`, `managed_answers.dfy`, `managed_time.dfy`: the streaming
  supervisor.
* `managed_child.dfy`: the caller's handle.
* `protocol.dfy`, `protocol_theorems.dfy`, `protocol_startup.dfy`, `protocol_requests.dfy`: caller,
  supervisor thread and background reaper as three interleaved actors over their channels.
* `protocol_refinement.dfy`: the thread of the protocol refines the streaming supervisor.
* `environment.dfy`: the three readings of the environment log.
* `base.dfy`, `outcome.dfy`, `policy.dfy`: shared values.

## How the environment enters

The kernel, the clock, the allocator and the other threads are inputs. A run takes finite lists of
answers, one record per loop turn, and every pipe carries the list of answers its reads will give
(including whether memory could grow for a chunk). A run whose answers end before it does is *in
progress*, so statements about unfinished runs speak of every turn boundary. Nothing is assumed of the
answers, except where a lemma says so (a clock that moves, a bound on work, a pipe with no writer).
Times are nanoseconds; a wait lasts at most as long as it was asked to, and oversleeping counts as work.

Objects the source mutates are classes here (`CaptureStream`, `OwnedChild`, `ObservationRecord`,
`ManagedChild`, `ProcessBuilder`). Their methods, and the loops over them, are proved equal to functions
on their abstract values; the theorems are about those functions. Histories, drained bytes and consumed
answers are ghost state of the classes.

A history is judged event by event against what came before it (`Lifecycle.Lawful`);
`Lifecycle.LawfulByPosition` gives the reading by position.

## Notes on the code

* The architecture notes say cleanup is bounded by two seconds after a terminal trigger and 2.1 seconds
  are visible to callers. The code bounds its waits, not its work. With every stretch of work at most
  `delta`, a run ends within two seconds and four stretches of its trigger, whatever the trigger, and some
  run takes that long; so the allowance is met by all of them exactly when `4 * delta` is at most 100 ms,
  or `6 * delta` counted from the start of a run under a deadline (`ExecutorTime.TheBoundIsTight`,
  `ExecutorTime.RunsMeetTheAllowance`, `ManagedTime.ManagedRunsMeetTheAllowance`).
* The two supervisors are not interchangeable: only the capturing one samples the deadline again during
  cleanup (`ExecutorCauses.LateCleanupTimesOut`, `ManagedTheorems.ManagedTimeoutsPrecedeTheKill`).
  `ManagedTheorems.LateCleanupKeepsAManagedExit` and `ManagedTheorems.LateCleanupTimesACaptureOut` are the
  same answers given to both.
* An observation error that comes before waitability stops all further observation, so that leader is
  never reaped by its supervisor (`ExecutorTheorems.BlindLeaderIsHandedOff`).
* The reaper thread has no path that ends it before a child arrives, but the handoff has a branch for
  it. The protocol therefore lets the reaper stop early while nothing has been sent to it, and lets the
  caller vanish before startup, so that both failure branches are exercised.

## Model

| member | source | states |
|---|---|---|
| `Capture.CaptureStream.PumpChunks` | crates/epitelesis/src/supervisor.rs:883-905 | reading up to a chunk budget leaves the stream exactly as absorbing one answer at a time does, stopping at end of file, would-block, an error or a closed pipe; an interruption costs one unit of budget |
| `Capture.CaptureStream.RetainChunk` | crates/epitelesis/src/supervisor.rs:907-943 | retaining one chunk: bounded prefix, saturating discard count, first overflow recorded, failed growth drops what would have been kept and closes the pipe |
| `Capture.CaptureStream.constructor` | crates/epitelesis/src/supervisor.rs:850-870 | a new stream for a pipe, or a redirected one without |
| `Capture.CaptureStream.SetNonblocking` | crates/epitelesis/src/supervisor.rs:872-881 | a failing `fcntl` on an open pipe is a capture failure that closes it |
| `Capture.CaptureStream.IntoReport` | crates/epitelesis/src/supervisor.rs:965-980 | the report of the stream's abstract value |
| `Capture.PumpBothFairly` | crates/epitelesis/src/supervisor.rs:604-627 | one fair turn on the two (distinct) stream objects: each ready stream gets its full budget whoever goes first, and the turn order flips |
| `Capture.NewStreamFaithful` | crates/epitelesis/src/supervisor.rs:850-881 | a stream just opened and made nonblocking satisfies the stream invariant |
| `Capture.AbsorbFaithful` | crates/epitelesis/src/supervisor.rs:883-951 | every read answer keeps the stream invariant, only appends to the drained bytes, and drains at most one chunk |
| `Capture.PumpFaithful` | crates/epitelesis/src/supervisor.rs:883-951 | every pump keeps the invariant under any answers: pipe absent iff terminal, the three terminal reasons exclude each other, retained bytes are a prefix within the limit, the discard counter is the saturated difference, overflow is recorded iff a fail-closed limit was passed |
| `Capture.PumpUsesItsBudget` | crates/epitelesis/src/supervisor.rs:604-627 | a ready stream gets its full chunk budget: with more to read, either every unit went to one answer or the pipe said it would block |
| `Capture.TerminalStreamIsInert` | crates/epitelesis/src/supervisor.rs:883-905 | nothing is read after termination |
| `Capture.ReportIsTheBoundedPrefix` | crates/epitelesis/src/supervisor.rs:965-980 | Complete iff end of file with everything kept, Truncated iff end of file with something dropped, Incomplete iff piped without end of file; at end of file the bytes are the first min(limit, drained) |
| `Capture.TurnsAreIndependent` | crates/epitelesis/src/supervisor.rs:604-627 | any series of fair turns, in either starting order, leaves each stream as if pumped alone for the turns in which it was ready |
| `Capture.PumpReplays` | crates/epitelesis/src/supervisor.rs:883-951 | a pumped stream is a function of the answers it consumed, which are a prefix of its pipe's answers with nothing taken after the closing one |
| `Capture.ClosedAlike` | crates/epitelesis/src/supervisor.rs:883-951 | two streams opened alike over the same answers agree in everything once both have closed |
| `Capture.DrainedIsWritten` | crates/epitelesis/src/supervisor.rs:883-951 | the drained bytes are the first bytes the pipe carries, and at end of file all of them: none lost, duplicated or reordered |
| `Capture.StreamsEndAsRead` | crates/epitelesis/src/supervisor.rs:883-951 | a stream says of its pipe exactly what the last answer said: end of file, that very error, or a buffer that could not grow, with what had been kept before that chunk intact |
| `Capture.FailedGrowthCloses` | crates/epitelesis/src/supervisor.rs:907-943 | growth that fails closes the stream exactly when there was something to keep of the chunk |
| `Capture.PumpProgress` | crates/epitelesis/src/supervisor.rs:883-951 | over a pipe that will end, every pump turn consumes something and adds no failure |
| `Lifecycle.OwnedChild.KillGroup` | crates/epitelesis/src/supervisor.rs:1033-1035 | signals the group and changes nothing else |
| `Lifecycle.OwnedChild.LeaderWaitable` | crates/epitelesis/src/supervisor.rs:1037-1045 | a non-reaping observation; without a child it answers waitable and asks nobody |
| `Lifecycle.OwnedChild.ReapWaitable` | crates/epitelesis/src/supervisor.rs:1047-1056 | a successful wait releases the child, a failed one keeps it, and without a child it is an error |
| `Lifecycle.OwnedChild.HandoffToBackgroundReaper` | crates/epitelesis/src/supervisor.rs:1058-1080 | the child leaves only if the reaper accepts it; the sender is gone either way |
| `Lifecycle.OwnedChild.Drop` | crates/epitelesis/src/supervisor.rs:1083-1091 | a child still held is signalled and offered, otherwise nothing happens |
| `Lifecycle.Observe` | crates/epitelesis/src/supervisor.rs:539-551 | one `observe_leader`: nothing once waitable, blind or childless; otherwise the answer is noted |
| `Lifecycle.LawfulByPosition` | crates/epitelesis/src/supervisor.rs:278-316 | reading of the lifecycle law by position: every wait follows a group signal, a supervisor's wait follows a positive NOWAIT observation, nobody signals, observes, waits or offers after a reap, nobody observes again after a positive answer, the reaper waits only for a child it accepted, only the first offer can be accepted |
| `Lifecycle.ObservationsStick` | crates/epitelesis/src/supervisor.rs:539-551 | waitability and the first observation error are never overwritten, and after either the leader is not asked again |
| `Lifecycle.ReapKeeps` | crates/epitelesis/src/supervisor.rs:284-297 | a reap attempt on a waitable leader keeps the lifecycle invariant and releases the child iff it succeeded |
| `Lifecycle.TransferParts` | crates/epitelesis/src/supervisor.rs:468-474 | after the transfer the disposition tells who holds the child |
| `Lifecycle.HandoffsFailFor` | crates/epitelesis/src/supervisor.rs:1058-1080 | a first refusal is the stopped reaper, every later one the missing sender, and an accepted child is not offered again |
| `Lifecycle.DropIsExact` | crates/epitelesis/src/supervisor.rs:1083-1091 | the drop of a child still held signals it once more and offers it once more, and of none does nothing |
| `Lifecycle.DropAfterTransfer` | crates/epitelesis/src/supervisor.rs:1083-1091 | the drop after a refused handoff must be refused again and falsifies no reported fact |
| `Lifecycle.DropKeepsOwned` | crates/epitelesis/src/supervisor.rs:1083-1091 | a drop while unwinding is lawful from any state, and hands the child over if the reaper lives |
| `Lifecycle.ReaperMayWait` | crates/epitelesis/src/supervisor.rs:987-1003 | the background reaper's wait is lawful however late it comes and however it ends |
| `Lifecycle.PanicIsLawful` | crates/epitelesis/src/supervisor.rs:1083-1091 | the drop of an owned child by a panic after any event of a lawful history is lawful |
| `Lifecycle.SettlingFollowsSignal` | crates/epitelesis/src/supervisor.rs:1033-1091 | nobody else gets the child, and its supervisor does not reap it, before its group was signalled |
| `Classification.TwoStagesPickTheBestVerdict` | crates/epitelesis/src/supervisor.rs:661-734 | choosing before the reports exist and promoting a capture failure afterwards picks the best supported verdict of the documented order |
| `Executor.Execute` | crates/epitelesis/src/supervisor.rs:358-516 | the imperative supervisor over its stream, child and observation objects equals the run function for every environment |
| `Executor.SuperviseLoop` | crates/epitelesis/src/supervisor.rs:397-425 | the observation loop over the objects equals its specification |
| `Executor.CleanupLoop` | crates/epitelesis/src/supervisor.rs:429-466 | the cleanup loop over the objects equals its specification |
| `Executor.PollThenPump` | crates/epitelesis/src/supervisor.rs:411-424 | one poll and the pumps it triggers; the first poll error is kept |
| `Executor.Settle` | crates/epitelesis/src/supervisor.rs:468-516 | handoff, evidence, classification and drop in that order |
| `ExecutorTheorems.EveryRunIsLawful` | crates/epitelesis/src/supervisor.rs:397-516 | every run obeys the lifecycle law up to and including the drop; what is owned is at every point a function of the history; and a panic after any event, in a turn or between them, drops it lawfully |
| `ExecutorTheorems.AcceptedHandoffIsLast` | crates/epitelesis/src/supervisor.rs:987-1003 | an accepted handoff is the last event of its run, and the reaper may wait after it |
| `ExecutorTheorems.LastSound` | crates/epitelesis/src/supervisor.rs:397-466 | the run invariant (child, streams, clock) holds when cleanup ends |
| `ExecutorTheorems.OngoingSound` | crates/epitelesis/src/supervisor.rs:397-466 | and at every turn boundary of every unfinished run |
| `ExecutorTheorems.EvidenceIsTruthful` | crates/epitelesis/src/supervisor.rs:468-506 | status, signal and disposition in the evidence are those of the history: Reaped iff the supervisor reaped, BackgroundReaper iff the handoff was accepted, Unreaped iff it was refused, with every failure on the way in order, even after the drop |
| `ExecutorTheorems.CleanupIsTruthful` | crates/epitelesis/src/supervisor.rs:475-490 | cleanup is complete iff the supervisor reaped and both streams are terminal; otherwise it names exactly what is left |
| `ExecutorTheorems.ReportsAreFaithful` | crates/epitelesis/src/supervisor.rs:475-506 | each report is of its own pipe: its bytes are a prefix of what the pipe carries, within the limit; the discard count is what is missing of the drained bytes; at end of file, failed run or not, the bytes are what the policy keeps of the whole pipe; redirected iff there was no pipe |
| `ExecutorTheorems.SuccessIsSound` | crates/epitelesis/src/supervisor.rs:358-516 | `Ok` means: reaped with exactly the reported successful status, signal sent or group gone, cleanup complete, no sample saw cancellation or deadline, and each stream redirected or delivered: exactly the bytes its pipe carried, or under truncation the first limit of them with the rest counted |
| `ExecutorTheorems.RetainedIsABoundedPrefix` | crates/epitelesis/src/supervisor.rs:907-943 | wherever a run stands, retained bytes are a prefix within the limit, the discard count is the saturated difference, and it is zero iff nothing was dropped |
| `ExecutorTheorems.LimitsFailClosed` | crates/epitelesis/src/supervisor.rs:661-714 | a finished run reports a capture limit iff a fail-closed stream drained more than its limit, stdout before stderr, whatever else happened |
| `ExecutorTheorems.RunOvershootIsBounded` | crates/epitelesis/src/supervisor.rs:398-428 | when the loop is left a fail-closed stream has drained at most 65,536 bytes beyond its limit |
| `ExecutorTheorems.TheOvershootIsReached` | crates/epitelesis/src/supervisor.rs:146-147 | and some run drains exactly those 65,536 bytes of each stream in one turn |
| `ExecutorTheorems.PrecedenceIsFlat` | crates/epitelesis/src/supervisor.rs:661-734 | every run is reported under the best ranked verdict its facts support |
| `ExecutorTheorems.CancellationIsHonoured` | crates/epitelesis/src/supervisor.rs:399-433 | once any sample saw cancellation the result is a capture limit or Cancelled |
| `ExecutorTheorems.EveryFlagCounts` | crates/epitelesis/src/supervisor.rs:399-433 | a flag set in any turn the run took, in either loop, ends it in a capture limit or Cancelled |
| `ExecutorTheorems.DefensiveBranchesAreDead` | crates/epitelesis/src/supervisor.rs:716-796 | no unknown outcome is ever built, a supervision failure carries an error the kernel gave, LifecycleFailed iff a complete exit had a failed signal |
| `ExecutorTheorems.BlindLeaderIsHandedOff` | crates/epitelesis/src/supervisor.rs:539-551 | from any point of cleanup at which an observation error came first, the leader is never waited for, always offered, and cleanup is incomplete |
| `ExecutorTheorems.BlindSupervisionIsHandedOff` | crates/epitelesis/src/supervisor.rs:397-490 | the same when the error ended the observation loop |
| `ExecutorTheorems.CapturesAreScheduleIndependent` | crates/epitelesis/src/supervisor.rs:397-516 | two runs over the same answers of a pipe that both settle the stream report it identically |
| `ExecutorTheorems.OutputPreservesTheExit` | crates/epitelesis/src/sync.rs:17-38 | `output` is Ok iff the verdict was the exit and everything settled, with the reaped status; all other results pass unchanged, and `status` is its status or its error |
| `ExecutorCauses.SupervisionEndsAtTheFirstCause` | crates/epitelesis/src/supervisor.rs:398-410 | the observation loop goes on past a turn iff that turn met no overflow, capture failure, request, deadline, error or waitable leader, and otherwise ends with it |
| `ExecutorCauses.FirstErrorIsKept` | crates/epitelesis/src/supervisor.rs:411-424 | the first error from `waitid` or `poll` is the one kept to the end; the leader is then handed off unreaped and the run fails |
| `ExecutorCauses.CleanupErrorIsReported` | crates/epitelesis/src/supervisor.rs:449-466 | a poll error during cleanup excludes `Ok`, and a plain non-zero exit, even if everything settles |
| `ExecutorCauses.ErrorsAreReported` | crates/epitelesis/src/supervisor.rs:661-734 | a run that met an observation error fails with it, or with something that outranks it |
| `ExecutorCauses.DeadlineIsHonoured` | crates/epitelesis/src/supervisor.rs:432-433 | once any sample saw the deadline the result is a capture limit, Cancelled or Timeout |
| `ExecutorCauses.LateCleanupTimesOut` | crates/epitelesis/src/supervisor.rs:429-433 | a cleanup turn sampled at the deadline or later has the same effect, even after an exit in time |
| `ExecutorAnswers.RefusalsAreExact` | crates/epitelesis/src/supervisor.rs:366-380 | from the launch answers alone: refused with the reaper's, the deadline's or the spawn's own error, in that order, and not refused iff all three succeed |
| `ExecutorAnswers.CancellationIsExact` | crates/epitelesis/src/supervisor.rs:399-433 | a finished run saw cancellation iff the flag was set at some sample it took in either loop, and is Cancelled iff in addition no capture limit was exceeded |
| `ExecutorAnswers.DeadlineIsExact` | crates/epitelesis/src/supervisor.rs:399-433 | it saw the deadline iff some sample it took came no earlier, and is a Timeout iff in addition nobody cancelled and no limit was exceeded |
| `ExecutorAnswers.ErrorsAreExact` | crates/epitelesis/src/supervisor.rs:411-466 | it records an error iff the kernel answered a `waitid` it asked, or a `poll` with something to poll, with one; an interrupted call never counts; the recorded error is one of those answers |
| `ExecutorAnswers.WaitabilityIsExact` | crates/epitelesis/src/supervisor.rs:539-551 | supervision knows the leader waitable iff a turn that asked was told so |
| `ExecutorAnswers.StatusIsExact` | crates/epitelesis/src/supervisor.rs:436-451 | the reported status is the answer of the wait made by a cleanup turn that held a waitable child, and there is one iff such a wait succeeded |
| `ExecutorAnswers.MainTurnReads` | crates/epitelesis/src/supervisor.rs:411-424 | a supervision turn that goes on reads each stream iff `poll` set that stream's own bit, and an interrupted poll changes nothing |
| `ExecutorAnswers.CleanTurnReads` | crates/epitelesis/src/supervisor.rs:455-465 | the same for a cleanup turn |
| `ExecutorAnswers.RunsReadWhatIsReady` | crates/epitelesis/src/supervisor.rs:397-466 | over a whole run each stream is as if pumped alone in exactly the turns in which its own bit was set |
| `ExecutorAnswers.WaitsAreTheLongestAllowed` | crates/epitelesis/src/supervisor.rs:553-561 | a wait is the longest that oversteps neither one quantum nor either deadline |
| `ExecutorAnswers.BudgetStartsBeforeTheKill` | crates/epitelesis/src/supervisor.rs:427-430 | the two seconds of cleanup start before the group signal, and are none if the clock cannot hold them |
| `ExecutorAnswers.GuardIsExact` | crates/epitelesis/src/supervisor.rs:430-431 | a cleanup turn that is reached is taken iff the clock has not yet come to the end of the budget |
| `ExecutorAnswers.SignalIsExact` | crates/epitelesis/src/supervisor.rs:527-537 | the reported signal is Sent iff `kill` delivered, AlreadyGone iff there was no such group, and otherwise carries its error |
| `ExecutorAnswers.CapturesEndHonestly` | crates/epitelesis/src/supervisor.rs:872-951 | a report's failure is the error of `fcntl` or of the last read, or the failed growth, and nothing else |
| `ExecutorAnswers.VerdictsAreExact` | crates/epitelesis/src/supervisor.rs:693-796 | the result of every verdict, with its own stream, limit, deadline or error, and of every way an exit turns out |
| `ExecutorTime.TimeoutIsHonest` | crates/epitelesis/src/supervisor.rs:374-402 | a timeout lasted at least the configured duration, and a sample saw the deadline |
| `ExecutorTime.RunsSettleAfterTheTrigger` | crates/epitelesis/src/supervisor.rs:427-506 | under any policy and for any trigger, a finished run is over within the cleanup budget and four stretches of work of the sample that ended supervision |
| `ExecutorTime.RunsSettleAfterACause` | crates/epitelesis/src/supervisor.rs:398-506 | and within one more quantum, and the work of two turns, of the start of the turn in which the cause came up |
| `ExecutorTime.RunsAreTimely` | crates/epitelesis/src/supervisor.rs:398-466 | under a deadline the trigger is bounded too: any finished run is over within the deadline, the budget and six stretches of work |
| `ExecutorTime.TheBoundIsTight` | crates/epitelesis/src/supervisor.rs:427-466 | for every stretch of work some run takes exactly those bounds, from the trigger and from the start |
| `ExecutorTime.RunsMeetTheAllowance` | crates/epitelesis/src/policy.rs:14-18 | all runs meet the 2.1 second allowance iff four stretches from the trigger, or six from the start of a run under a deadline, fit in its margin of 100 ms |
| `ExecutorTime.RunsEndAfterACause` | crates/epitelesis/src/supervisor.rs:397-466 | under any policy and with a moving clock, the first cause ends supervision and the run finishes, under any answers |
| `ExecutorTime.RunsEnd` | crates/epitelesis/src/supervisor.rs:399-466 | with a deadline there is always a cause, so every run ends |
| `ExecutorTime.CleanupProgress` | crates/epitelesis/src/supervisor.rs:427-466 | after a kill that leaves no writer, a measure over pending answers and the unreaped child falls until cleanup is left settled |
| `ExecutorTime.CalmCleanupCompletes` | crates/epitelesis/src/supervisor.rs:427-490 | and then both pipes are at end of file, the child is reaped and cleanup is complete |
| `ExecutorTime.CalmRunsComplete` | crates/epitelesis/src/supervisor.rs:427-490 | the same from the spawn on, within the two-second budget |
| `ExecutorTime.TurnsAreShort` | crates/epitelesis/src/supervisor.rs:553-561 | no turn of either loop sleeps beyond one event quantum |
| `Managed.SuperviseManaged` | crates/epitelesis/src/supervisor.rs:255-341 | the imperative streaming supervisor equals its run function for every environment |
| `Managed.WatchChild` | crates/epitelesis/src/supervisor.rs:263-276 | its observation loop |
| `Managed.SettleChild` | crates/epitelesis/src/supervisor.rs:278-309 | its cleanup loop |
| `Managed.Listen` | crates/epitelesis/src/supervisor.rs:272-275 | a message or a hangup on the cancel channel counts as cancellation, a timeout does not |
| `Managed.ReportManaged` | crates/epitelesis/src/supervisor.rs:311-340 | its handoff, evidence, classification and drop |
| `ManagedTheorems.EveryManagedRunIsLawful` | crates/epitelesis/src/supervisor.rs:255-341 | the lifecycle law for streaming runs, wherever they stop, after the drop, and for a panic after any event |
| `ManagedTheorems.ManagedEvidenceIsTruthful` | crates/epitelesis/src/supervisor.rs:311-339 | the evidence is that of the history, and complete iff reaped |
| `ManagedTheorems.ManagedVerdicts` | crates/epitelesis/src/supervisor.rs:661-764 | the result is determined by the history: Cancelled, else Timeout, else the observed error (never with a reap), else the exit |
| `ManagedTheorems.EveryRequestCounts` | crates/epitelesis/src/supervisor.rs:263-309 | a message or hangup at any look at the channel, in either loop, makes the result Cancelled |
| `ManagedTheorems.ObservationEndsAtTheFirstCause` | crates/epitelesis/src/supervisor.rs:263-276 | the streaming loop goes on past a turn iff it met no request, deadline, error or waitable leader |
| `ManagedTheorems.ManagedTimeoutsPrecedeTheKill` | crates/epitelesis/src/supervisor.rs:263-309 | a timeout is reported iff the observation loop saw the deadline and nobody asked for cancellation, however long cleanup takes |
| `ManagedAnswers.RequestsAreExact` | crates/epitelesis/src/supervisor.rs:263-309 | a streaming run is Cancelled iff some look it took at the channel, in either loop, found a message or a hangup |
| `ManagedAnswers.ManagedDeadlineIsExact` | crates/epitelesis/src/supervisor.rs:263-276 | it is a Timeout iff its observation loop sampled at the deadline or later and no look found a request |
| `ManagedAnswers.ManagedErrorsAreExact` | crates/epitelesis/src/supervisor.rs:263-309 | it records exactly the error with which `waitid` answered a question of it, and one iff there was one |
| `ManagedAnswers.ManagedStatusIsExact` | crates/epitelesis/src/supervisor.rs:281-299 | its status is the answer of the wait it made, and there is one iff that wait succeeded |
| `ManagedAnswers.ManagedSignalIsExact` | crates/epitelesis/src/supervisor.rs:311-339 | its signal is the answer of `kill`, its failures those of the history, and both its streams are reported redirected |
| `ManagedTime.ManagedTimeoutIsHonest` | crates/epitelesis/src/supervisor.rs:263-276 | a streaming timeout lasted at least the configured duration |
| `ManagedTime.ManagedRunsSettleAfterTheTrigger` | crates/epitelesis/src/supervisor.rs:278-339 | the bound from the trigger, under any policy |
| `ManagedTime.ManagedRunsSettleAfterACause` | crates/epitelesis/src/supervisor.rs:264-339 | and from the turn in which the cause came up |
| `ManagedTime.ManagedRunsAreTimely` | crates/epitelesis/src/supervisor.rs:264-309 | and from the start of a run under a deadline |
| `ManagedTime.TheManagedBoundIsTight` | crates/epitelesis/src/supervisor.rs:278-309 | for every stretch of work some cancelled run, with no deadline at all, takes exactly the bound from the trigger |
| `ManagedTime.ManagedRunsMeetTheAllowance` | crates/epitelesis/src/policy.rs:14-18 | all streaming runs meet the allowance from the trigger iff four stretches fit in its margin |
| `ManagedTime.ManagedRunsEndAfterACause` | crates/epitelesis/src/supervisor.rs:264-309 | under any policy the first cause ends observation and the run reports |
| `ManagedTime.ManagedRunsEnd` | crates/epitelesis/src/supervisor.rs:264-309 | with a deadline there is always a cause |
| `ManagedHandle.ManagedChild.Poll` | crates/epitelesis/src/managed.rs:107-147 | one poll: the first message or the closed channel is retained |
| `ManagedHandle.ManagedChild.Wait` | crates/epitelesis/src/managed.rs:94-105 | closes stdin, uses the retained or received result, joins once |
| `ManagedHandle.ManagedChild.Cancel` | crates/epitelesis/src/managed.rs:121-130 | sends one request, then waits; settled cancellations become Ok |
| `ManagedHandle.ManagedChild.JoinAfterResult` | crates/epitelesis/src/managed.rs:159-173 | a panicked supervisor turns a success, and only a success, into a failure with the same evidence |
| `ManagedHandle.ManagedChild.Drop` | crates/epitelesis/src/managed.rs:225-236 | requests cancellation iff a result is still outstanding, without waiting |
| `ManagedHandle.PollIsStable` | crates/epitelesis/src/managed.rs:107-147 | a terminal poll never changes |
| `ManagedHandle.PollShowsTheMessage` | crates/epitelesis/src/managed.rs:107-147 | a poll shows the held or received result, success or error, the loss of the channel, or that nothing has come |
| `ManagedHandle.WaitReturnsTheMessage` | crates/epitelesis/src/managed.rs:94-173 | a wait returns the message it receives; a panic turns a success, and nothing else, into a failure with its evidence; a closed channel is reported as such |
| `ManagedHandle.LostSupervisorVouchesForNothing` | crates/epitelesis/src/managed.rs:175-198 | the evidence of a lost supervisor claims nothing |
| `ManagedHandle.WaitAgreesWithPoll` | crates/epitelesis/src/managed.rs:94-173 | a wait returns what the last poll showed, except for a success whose supervisor then panicked |
| `ManagedHandle.CancelOkMeansSettled` | crates/epitelesis/src/managed.rs:121-211 | `cancel` is Ok iff the run succeeded without a panic or was cancelled and settled; the evidence is then settled; every other error passes unchanged |
| `ManagedHandle.CancelAcceptsWhatIsSettled` | crates/epitelesis/src/managed.rs:203-211 | of a cancelled run `cancel` accepts exactly complete cleanup, a signal sent or a group gone, and a reap without failures |
| `ProtocolTheorems.ReachableSound` | crates/epitelesis/src/supervisor.rs:156-253 | the protocol invariant over every interleaving of caller, supervisor and reaper, with drops and panics |
| `ProtocolTheorems.ChildIsInOnePlace` | crates/epitelesis/src/supervisor.rs:281-316 | a spawned child is in exactly one of supervisor, reaper channel, reaper, reaped |
| `ProtocolTheorems.ProtocolIsLawful` | crates/epitelesis/src/supervisor.rs:246-316 | kill before reap and no signal after reap across the three actors |
| `ProtocolTheorems.SendsNeverBlock` | crates/epitelesis/src/supervisor.rs:158-253 | no send on a capacity-one channel can block, at most one startup and one result are ever sent |
| `ProtocolTheorems.NoChildIsForgotten` | crates/epitelesis/src/supervisor.rs:243-253 | however the supervisor ends, the child was signalled, and was reaped or accepted by the reaper unless the reaper refused it |
| `ProtocolRequests.LostCallerIsNotServed` | crates/epitelesis/src/supervisor.rs:243-250 | in every continuation of a schedule in which the caller vanished before startup, nobody observes the child, the supervisor never waits for it and no result is sent; when it has ended the child was signalled and accepted or refused by the reaper |
| `ProtocolTheorems.NobodyIsStuck` | crates/epitelesis/src/supervisor.rs:173-198 | the supervisor can always step until it ends, and each blocking call of the caller, and the reaper's, resolves once the message is sent or the supervisor has ended |
| `ProtocolStartup.RefusedCallersAreToldWhy` | crates/epitelesis/src/supervisor.rs:173-242 | a caller without a handle is told the one thing that failed, with the kernel's error, or of a panic before anything was announced; a caller with one has a spawned child |
| `ProtocolStartup.RefusalIsFinal` | crates/epitelesis/src/supervisor.rs:217-241 | once the reaper, the deadline or the spawn has failed, every continuation leaves the caller without a handle, and with exactly that error when it is told |
| `ProtocolTheorems.WaitIsNeverCancelled` | crates/epitelesis/src/managed.rs:94-105 | a caller that only polls and waits never receives Cancelled |
| `ProtocolTheorems.OnlyAnUnsentResultIsLost` | crates/epitelesis/src/managed.rs:149-157 | a caller is told that the supervisor was lost iff the supervisor never sent a result |
| `ProtocolTheorems.PollSeesWhatWasSent` | crates/epitelesis/src/managed.rs:107-147 | a poll shows Running iff nothing was sent and the supervisor has not ended |
| `ProtocolTheorems.PollIsNeverCancelled` | crates/epitelesis/src/managed.rs:107-115 | nor ever sees it in a poll |
| `ProtocolRequests.RequestsAreHeard` | crates/epitelesis/src/managed.rs:225-236 | in every continuation, a request or a drop that came before the next look at the channel is never lost: only Cancelled, or the loss of a supervisor that never reports, is delivered |
| `ProtocolTheorems.CancelOkIsSettled` | crates/epitelesis/src/supervisor.rs:311-326 | in every interleaving, an Ok from `cancel` is settled evidence of a child the supervisor reaped; it rests on the flag taken before the handoff agreeing with the disposition after it |
| `ProtocolTheorems.ReceivedEvidenceIsTruthful` | crates/epitelesis/src/supervisor.rs:311-339 | status, disposition and failures the caller holds stay those of the history, and the signal that of the first `kill` in it, whatever drop, reap or panic follows |
| `ProtocolRefinement.ReceivedResultsAreRuns` | crates/epitelesis/src/supervisor.rs:255-341 | every result held in any interleaving is, but for the clock reading, that of a run of the sequential supervisor, spoiled only by a panic the caller has joined; or, iff none was sent, the loss of the thread |
| `Environment.PrepareEnvironment` | crates/epitelesis/src/command.rs:386-412 | the child gets, for every key, the value of the last operation naming it, else the policy-filtered parent's; later changes of the parent do not matter |
| `Environment.ApplyPolicy` | crates/epitelesis/src/policy.rs:145-152 | the allowlist and inherit loops copy exactly the allowed parent keys |
| `Environment.GetEnvs` | crates/epitelesis/src/command.rs:250-263 | the effective view names exactly the keys of the log, each with its last operation |
| `Environment.ValidatePathPolicy` | crates/epitelesis/src/command.rs:444-470 | a bare program is accepted iff PATH has a value in the child |
| `Environment.DecidingIsTheLast` | crates/epitelesis/src/command.rs:403-412 | the deciding operation of a key is the last one naming it |
| `Environment.ReplayIsOverlay` | crates/epitelesis/src/command.rs:250-263 | replaying the log over the filtered parent is overlaying the effective view on it |
| `Environment.PoliciesLetThrough` | crates/epitelesis/src/policy.rs:145-152 | a clean policy lets nothing through, an allowlist its keys that exist, inheritance everything |
| `Environment.AgreeOnOneCommand` | crates/epitelesis/src/command.rs:369-470 | the three loops agree on one command |

## Left out

- Operating system calls: `waitid`, `poll`, `kill`, `fcntl`, `read`, threads and processes appear only as answers; pids, and descendants that leave the process group, are not modelled.
- The Tokio adapter (async_impl.rs): only its effect, a cancellation flag that may be seen at any sample.
- Error text, locations, tracing, UTF-8 views, paths and OS strings: errors are an operating system code or one of the crate's own causes, keys and values are opaque strings, and a program is its absoluteness and component count.
- Command builders, typestate, reasons and `streaming()`: one branch each, or enforced by the Rust type system.
- Pipe handles of a streaming child: the caller owns them; only whether stdin is still held is kept.
- Platforms without process groups: a constant error before spawn.
- `validate_deadline` (policy.rs): the builder's earlier check, with a clock reading of its own; the check `execute` makes itself is modelled.
- The order of keys in `get_envs`: the effective view is a map.
- Thread creation for the managed supervisor: the protocol starts once its thread runs.
- Protocol.Step: the protocol keeps no clock; whether a deadline or the cleanup budget has passed is a free answer (a deadline only if one is configured), which allows every timed run and some that no clock would produce.
- Executor.Execute: the turns of the two loops and the steps after them are separate methods, where the source writes one function.
- Panics inside an owned child's own drop: a second panic there aborts the process and is not modelled; all others are.
- A child the reaper accepted but could not wait for: counted as still with the reaper.
- Release scripts and configuration.
