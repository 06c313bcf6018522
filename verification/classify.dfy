/** From final observations and evidence to one result (`choose_primary` and the `classify` family in supervisor.rs). */
module Classification {
  import opened Base
  import opened Outcome
  import opened Lifecycle

  datatype Primary =
    | Limit(stream: StreamName, limit: nat)
    | CancelledFirst
    | DeadlineFirst
    | CaptureFailure
    | Supervision(error: IoError)
    | Exit

  function ChoosePrimary(seen: Observations, outOverflow: Option<nat>, errOverflow: Option<nat>): Primary {
    if outOverflow.Some? then Limit(Stdout, outOverflow.value)
    else if errOverflow.Some? then Limit(Stderr, errOverflow.value)
    else if seen.cancelled then CancelledFirst
    else if seen.deadlineElapsed then DeadlineFirst
    else if seen.observeError.None? then Exit
    else Supervision(seen.observeError.value)
  }

  /** A failed capture outranks a supervision failure and an exit, and nothing else. */
  function PromoteCaptureFailure(primary: Primary, e: LifecycleEvidence): Primary {
    if e.stdout.failure.None? && e.stderr.failure.None? then primary
    else match primary
      case Limit(_, _) | CancelledFirst | DeadlineFirst => primary
      case CaptureFailure | Supervision(_) | Exit => CaptureFailure
  }

  function ClassifyExit(e: LifecycleEvidence): RunResult {
    if e.cleanup.CleanupPartial? then Err(CleanupIncomplete(e))
    else if e.cleanup.CleanupUnknown? then Err(SupervisionFailed(Synthetic(CleanupUnrecovered), e))
    else if e.signal.SignalUnknown? || e.reap.disposition.DispositionUnknown? then
      Err(SupervisionFailed(Synthetic(SignalOrReapUnrecovered), e))
    else if e.signal.SignalFailed? || e.reap.failures != [] || e.reap.disposition.Unreaped? then
      Err(LifecycleFailed(e))
    else match e.leaderStatus
      case Some(status) => if status.Success() then Ok(Output(status, e)) else Err(NonZeroExit(e))
      case None => Err(SupervisionFailed(Synthetic(NoReapedStatus), e))
  }

  function ClassifyTimeout(configured: Option<nat>, e: LifecycleEvidence): RunResult {
    match configured
    case Some(deadline) => Err(Timeout(deadline, e))
    case None => Err(SupervisionFailed(Synthetic(DeadlineUnconfigured), e))
  }

  function Classify(chosen: Primary, configured: Option<nat>, e: LifecycleEvidence): RunResult {
    match PromoteCaptureFailure(chosen, e)
    case Limit(stream, limit) => Err(CaptureLimitExceeded(stream, limit, e))
    case CancelledFirst => Err(Cancelled(e))
    case DeadlineFirst => ClassifyTimeout(configured, e)
    case CaptureFailure => Err(CaptureFailed(e))
    case Supervision(source) => Err(SupervisionFailed(source, e))
    case Exit => ClassifyExit(e)
  }

  function ClassifyManaged(chosen: Primary, configured: Option<nat>, e: LifecycleEvidence): RunResult {
    match chosen
    case Limit(_, _) | CaptureFailure => Err(CaptureFailed(e))
    case CancelledFirst => Err(Cancelled(e))
    case DeadlineFirst => ClassifyTimeout(configured, e)
    case Supervision(source) => Err(SupervisionFailed(source, e))
    case Exit => ClassifyExit(e)
  }

  // ---------------------------------------------------------------------------------------------
  // The documented precedence, as an order on verdicts.

  /** The facts of a finished run support a verdict, whatever else they support. */
  predicate Supports(seen: Observations, outOverflow: Option<nat>, errOverflow: Option<nat>,
                     e: LifecycleEvidence, verdict: Primary) {
    match verdict
    case Limit(Stdout, limit) => outOverflow == Some(limit)
    case Limit(Stderr, limit) => errOverflow == Some(limit)
    case CancelledFirst => seen.cancelled
    case DeadlineFirst => seen.deadlineElapsed
    case CaptureFailure => e.stdout.failure.Some? || e.stderr.failure.Some?
    case Supervision(error) => seen.observeError == Some(error)
    case Exit => true
  }

  /** stdout limit, stderr limit, cancellation, deadline, capture failure, supervision failure, exit. */
  function Rank(verdict: Primary): nat {
    match verdict
    case Limit(Stdout, _) => 0
    case Limit(Stderr, _) => 1
    case CancelledFirst => 2
    case DeadlineFirst => 3
    case CaptureFailure => 4
    case Supervision(_) => 5
    case Exit => 6
  }

  /** Choosing before the reports exist and promoting afterwards picks the best supported verdict. */
  lemma TwoStagesPickTheBestVerdict(seen: Observations, outOverflow: Option<nat>, errOverflow: Option<nat>,
                                    e: LifecycleEvidence, other: Primary)
    ensures var winner := PromoteCaptureFailure(ChoosePrimary(seen, outOverflow, errOverflow), e);
      && Supports(seen, outOverflow, errOverflow, e, winner)
      && (Supports(seen, outOverflow, errOverflow, e, other) && other != winner ==> Rank(winner) < Rank(other))
  {
  }

  /** A recorded overflow decides the result before anything else is looked at. */
  lemma LimitDecides(seen: Observations, outOverflow: Option<nat>, errOverflow: Option<nat>, configured: Option<nat>,
                     e: LifecycleEvidence)
    ensures var r := Classify(ChoosePrimary(seen, outOverflow, errOverflow), configured, e);
      && (outOverflow.Some? ==> r == Err(CaptureLimitExceeded(Stdout, outOverflow.value, e)))
      && (outOverflow.None? && errOverflow.Some? ==> r == Err(CaptureLimitExceeded(Stderr, errOverflow.value, e)))
      && (r.Err? && r.error.CaptureLimitExceeded? ==> outOverflow.Some? || errOverflow.Some?)
  {
  }

  /** What a timeout asks of the facts. */
  lemma TimeoutAsks(seen: Observations, outOverflow: Option<nat>, errOverflow: Option<nat>, configured: Option<nat>,
                    e: LifecycleEvidence)
    ensures var r := Classify(ChoosePrimary(seen, outOverflow, errOverflow), configured, e);
      r.Err? && r.error.Timeout? ==>
        !seen.cancelled && seen.deadlineElapsed && configured == Some(r.error.deadline) && r.error.evidence == e
  {
  }

  /** What `Ok` asks of the facts and of the evidence. */
  lemma OkAsks(seen: Observations, outOverflow: Option<nat>, errOverflow: Option<nat>, configured: Option<nat>,
               e: LifecycleEvidence)
    ensures var r := Classify(ChoosePrimary(seen, outOverflow, errOverflow), configured, e);
      r.Ok? ==>
        && outOverflow.None? && errOverflow.None? && !seen.cancelled && !seen.deadlineElapsed
        && e.stdout.failure.None? && e.stderr.failure.None?
        && e.cleanup.CleanupComplete? && (e.signal.Sent? || e.signal.AlreadyGone?) && e.reap.failures == []
        && e.leaderStatus.Some? && e.leaderStatus.value.Success() && r.value == Output(e.leaderStatus.value, e)
  {
  }
}
