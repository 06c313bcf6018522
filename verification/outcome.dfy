/** Evidence, results and errors handed to callers (output.rs and error.rs). */
module Outcome {
  import opened Base

  datatype StreamName = Stdout | Stderr

  datatype ExitStatus = ExitStatus(raw: int) {
    predicate Success() {
      raw == 0
    }
  }

  /** Errors the crate builds itself, as opposed to those the kernel reports. */
  datatype Cause =
    | DeadlineUnconfigured
    | CleanupUnrecovered
    | SignalOrReapUnrecovered
    | AlreadyReaped
    | NoReapedStatus
    | NonZeroWithoutStatus
    | ResultChannelClosed
    | SupervisorPanicked
    | PanickedBeforeStartup
    | ExitedBeforeStartup

  datatype IoError = OsError(code: int) | Synthetic(cause: Cause)

  /** The only errors the environment can answer with. */
  type KernelError = e: IoError | e.OsError? witness OsError(0)

  datatype FailureEvidence =
    | SignalFailure(error: IoError)
    | ReapFailure(error: IoError)
    | ReaperUnavailable
    | ReaperStopped

  datatype GroupSignalOutcome = Sent | AlreadyGone | SignalFailed(failure: FailureEvidence) | SignalUnknown

  datatype LeaderReapDisposition = Reaped | BackgroundReaper | Unreaped | DispositionUnknown

  datatype LeaderReapOutcome = LeaderReapOutcome(disposition: LeaderReapDisposition, failures: seq<FailureEvidence>)

  datatype CaptureFailure = ReadFailure(error: IoError) | AllocationFailure

  datatype CaptureCompleteness =
    | Complete
    | Truncated(discarded: nat)
    | Incomplete(discarded: nat)
    | Redirected
    | Unknown

  datatype CapturedStream = CapturedStream(bytes: seq<byte>, completeness: CaptureCompleteness)

  datatype CaptureReport = CaptureReport(stream: StreamName, captured: CapturedStream, failure: Option<CaptureFailure>)

  datatype CleanupOutcome =
    | CleanupComplete
    | CleanupPartial(unfinished: seq<StreamName>, leaderUnsettled: bool)
    | CleanupUnknown

  datatype LifecycleEvidence = LifecycleEvidence(
    leaderStatus: Option<ExitStatus>,
    elapsed: Option<nat>,
    signal: GroupSignalOutcome,
    reap: LeaderReapOutcome,
    stdout: CaptureReport,
    stderr: CaptureReport,
    cleanup: CleanupOutcome)

  datatype Output = Output(status: ExitStatus, evidence: LifecycleEvidence)

  datatype Error =
    | DeadlineOverflow(duration: nat)
    | SpawnFailed(source: IoError)
    | SupervisorStartFailed(source: IoError)
    | ReaperStartFailed(source: IoError)
    | NonZeroExit(evidence: LifecycleEvidence)
    | Timeout(deadline: nat, evidence: LifecycleEvidence)
    | CaptureLimitExceeded(stream: StreamName, limit: nat, evidence: LifecycleEvidence)
    | Cancelled(evidence: LifecycleEvidence)
    | CaptureFailed(evidence: LifecycleEvidence)
    | SupervisionFailed(source: IoError, evidence: LifecycleEvidence)
    | LifecycleFailed(evidence: LifecycleEvidence)
    | CleanupIncomplete(evidence: LifecycleEvidence)

  type RunResult = Result<Output, Error>

  /** `CapturedStream::settled`: the pipe reached end of file. */
  function SettledCapture(bytes: seq<byte>, discarded: nat): CapturedStream {
    CapturedStream(bytes, if discarded == 0 then Complete else Truncated(discarded))
  }

  /** `CapturedStream::incomplete`: end of file was never read. */
  function IncompleteCapture(bytes: seq<byte>, discarded: nat): CapturedStream {
    CapturedStream(bytes, Incomplete(discarded))
  }

  const REDIRECTED_CAPTURE := CapturedStream([], Redirected)

  function RedirectedReport(name: StreamName): CaptureReport {
    CaptureReport(name, REDIRECTED_CAPTURE, None)
  }

  function UnknownReport(name: StreamName): CaptureReport {
    CaptureReport(name, CapturedStream([], Unknown), None)
  }

  /** Evidence used when the supervisor thread was lost before it reported. */
  const UNKNOWN_EVIDENCE := LifecycleEvidence(
    None, None, SignalUnknown, LeaderReapOutcome(DispositionUnknown, []),
    UnknownReport(Stdout), UnknownReport(Stderr), CleanupUnknown)

  /** `cancellation_settled`: nothing about the child was left open. */
  predicate CancellationSettled(e: LifecycleEvidence) {
    && e.cleanup.CleanupComplete?
    && (e.signal.Sent? || e.signal.AlreadyGone?)
    && e.reap.disposition.Reaped?
    && e.reap.failures == []
  }
}
