/** The caller's handle on a streaming child (managed.rs). */
module ManagedHandle {
  import opened Base
  import opened Outcome
  import opened Executor
  import opened Managed
  import opened ManagedTheorems

  /** What `try_recv` on the result channel answers. */
  datatype TryReply = Got(result: RunResult) | Empty | Closed

  datatype PollView = Running | Exited(output: Output) | Failed(error: Error)

  datatype Handle = Handle(stdin: bool, supervisor: bool, result: Option<RunResult>)

  const NEW_HANDLE := Handle(true, true, None)

  const CHANNEL_FAILURE: RunResult := Err(SupervisionFailed(Synthetic(ResultChannelClosed), UNKNOWN_EVIDENCE))

  function ReceiveNonblocking(h: Handle, reply: TryReply): Handle {
    if h.result.Some? then h
    else match reply
      case Got(result) => h.(result := Some(result))
      case Empty => h
      case Closed => h.(result := Some(CHANNEL_FAILURE))
  }

  function View(h: Handle): PollView {
    match h.result
    case None => Running
    case Some(Ok(output)) => PollView.Exited(output)
    case Some(Err(error)) => Failed(error)
  }

  /** The blocking `recv`; `None` is a closed channel. */
  function Receive(h: Handle, message: Option<RunResult>): Handle {
    if h.result.Some? then h
    else h.(result := Some(if message.Some? then message.value else CHANNEL_FAILURE))
  }

  /** `join_after_result`: a panicked supervisor turns a success, and nothing else, into a failure. */
  function Joined(result: RunResult, panicked: bool): RunResult {
    if panicked && result.Ok? then Err(SupervisionFailed(Synthetic(SupervisorPanicked), result.value.evidence))
    else result
  }

  /** What `wait` returns. */
  function WaitResult(h: Handle, message: Option<RunResult>, panicked: bool): RunResult {
    var received := Receive(h, message).result.value;
    if h.supervisor then Joined(received, panicked) else received
  }

  /** What `cancel` makes of the result it waited for. */
  function CancelOutcome(result: RunResult): Result<LifecycleEvidence, Error> {
    match result
    case Ok(output) => Ok(output.evidence)
    case Err(Cancelled(evidence)) => if CancellationSettled(evidence) then Ok(evidence) else Err(Cancelled(evidence))
    case Err(error) => Err(error)
  }

  // ---------------------------------------------------------------------------------------------

  /** Once a poll has shown a terminal state, every later poll shows the same one. */
  lemma PollIsStable(h: Handle, first: TryReply, second: TryReply)
    ensures var polled := ReceiveNonblocking(h, first);
      !View(polled).Running? ==> View(ReceiveNonblocking(polled, second)) == View(polled)
  {
  }

  /** A wait returns what the last poll showed, unless the supervisor panicked after a success. */
  lemma WaitAgreesWithPoll(h: Handle, reply: TryReply, message: Option<RunResult>, panicked: bool)
    requires h.supervisor
    ensures var polled := ReceiveNonblocking(h, reply); var r := WaitResult(polled, message, panicked);
      && (View(polled).Failed? ==> r == Err(View(polled).error))
      && (View(polled).Exited? && !panicked ==> r == Ok(View(polled).output))
      && (View(polled).Exited? && panicked ==> r.Err? && r.error.evidence == View(polled).output.evidence)
      && (reply.Empty? && message.None? && h.result.None? ==> r == CHANNEL_FAILURE)
      && (reply.Closed? && h.result.None? ==> View(polled).Failed? && r == CHANNEL_FAILURE)
  {
  }

  /** A poll shows exactly what the handle holds or has just been given. */
  lemma PollShowsTheMessage(h: Handle, reply: TryReply, output: Output, error: Error)
    ensures h.result == Some(Ok(output)) ==> View(ReceiveNonblocking(h, reply)) == PollView.Exited(output)
    ensures h.result == Some(Err(error)) ==> View(ReceiveNonblocking(h, reply)) == Failed(error)
    ensures h.result.None? && reply == Got(Ok(output)) ==>
              View(ReceiveNonblocking(h, reply)) == PollView.Exited(output)
    ensures h.result.None? && reply == Got(Err(error)) ==> View(ReceiveNonblocking(h, reply)) == Failed(error)
    ensures h.result.None? && reply.Empty? ==> View(ReceiveNonblocking(h, reply)).Running?
    ensures h.result.None? && reply.Closed? ==>
              View(ReceiveNonblocking(h, reply))
              == Failed(SupervisionFailed(Synthetic(ResultChannelClosed), UNKNOWN_EVIDENCE))
  {
  }

  /** A wait returns the message it receives; a panic spoils a success, and keeps its evidence. */
  lemma WaitReturnsTheMessage(h: Handle, message: Option<RunResult>, panicked: bool)
    requires h.supervisor && h.result.None?
    ensures message.Some? && (message.value.Err? || !panicked) ==> WaitResult(h, message, panicked) == message.value
    ensures message.Some? && message.value.Ok? && panicked ==>
              WaitResult(h, message, panicked)
              == Err(SupervisionFailed(Synthetic(SupervisorPanicked), message.value.value.evidence))
    ensures message.None? ==>
              WaitResult(h, message, panicked)
              == Err(SupervisionFailed(Synthetic(ResultChannelClosed), UNKNOWN_EVIDENCE))
  {
  }

  /** A lost supervisor vouches for nothing. */
  lemma LostSupervisorVouchesForNothing()
    ensures var e := UNKNOWN_EVIDENCE;
      && e.leaderStatus.None? && e.elapsed.None? && e.signal.SignalUnknown? && e.cleanup.CleanupUnknown?
      && e.reap == LeaderReapOutcome(DispositionUnknown, [])
      && e.stdout == CaptureReport(Stdout, CapturedStream([], Unknown), None)
      && e.stderr == CaptureReport(Stderr, CapturedStream([], Unknown), None)
      && !CancellationSettled(e)
  {
  }

  lemma OkIsSettled(p: Plan, start: nat, w: Script)
    requires p.started <= start && RunManaged(p, start, w).Reported?
    ensures RunManaged(p, start, w).result.Ok? ==>
              CancellationSettled(RunManaged(p, start, w).result.value.evidence)
  {
    ReportedAs(p, start, w);
  }

  /** Of a cancelled run, `cancel` accepts exactly evidence that leaves nothing open. */
  lemma CancelAcceptsWhatIsSettled(e: LifecycleEvidence)
    ensures CancelOutcome(Err(Cancelled(e))).Ok? <==>
              && e.cleanup == CleanupComplete && (e.signal == Sent || e.signal == AlreadyGone)
              && e.reap == LeaderReapOutcome(Reaped, [])
  {
  }

  lemma CancelOkAsks(r: RunResult, e: LifecycleEvidence, panicked: bool)
    requires r.Ok? ==> r.value.evidence == e && CancellationSettled(e)
    requires r.Err? && r.error.Cancelled? ==> r.error.evidence == e
    ensures var outcome := CancelOutcome(Joined(r, panicked));
      && (outcome.Ok? ==> outcome.value == e && CancellationSettled(e))
      && (outcome.Ok? <==> (r.Ok? && !panicked) || (r.Err? && r.error.Cancelled? && CancellationSettled(e)))
      && (outcome.Err? && r.Err? ==> outcome.error == r.error)
      && (outcome.Err? && r.Ok? ==> outcome.error == SupervisionFailed(Synthetic(SupervisorPanicked), e))
  {
  }

  /**
   * `cancel` returns `Ok` exactly for a settled run that succeeded or was cancelled, whether or not
   * the supervisor panicked after reporting, and a lost supervisor is never reported as settled.
   */
  lemma CancelOkMeansSettled(p: Plan, start: nat, w: Script, panicked: bool)
    requires p.started <= start && RunManaged(p, start, w).Reported?
    ensures var r := RunManaged(p, start, w).result; var outcome := CancelOutcome(Joined(r, panicked));
      && (outcome.Ok? ==> outcome.value == RunManaged(p, start, w).evidence && CancellationSettled(outcome.value))
      && (outcome.Ok? <==> (r.Ok? && !panicked) ||
                           (r.Err? && r.error.Cancelled? && CancellationSettled(r.error.evidence)))
      && (outcome.Err? && r.Err? ==> outcome.error == r.error)
      && CancelOutcome(CHANNEL_FAILURE).Err?
  {
    OkIsSettled(p, start, w);
    ReportedAs(p, start, w);
    CancelOkAsks(RunManaged(p, start, w).result, RunManaged(p, start, w).evidence, panicked);
  }

  // ---------------------------------------------------------------------------------------------
  // The imperative handle. Answers of the channels and of `join` are parameters.

  class ManagedChild {
    var stdin: bool
    var supervisor: bool
    var result: Option<RunResult>
    /** Messages sent on the cancellation channel. */
    var requests: nat

    function Value(): Handle
      reads this
    {
      Handle(stdin, supervisor, result)
    }

    constructor ()
      ensures Value() == NEW_HANDLE && requests == 0
    {
      stdin, supervisor, result, requests := true, true, None, 0;
    }

    method TakeStdin() returns (taken: bool)
      modifies this`stdin
      ensures taken == old(stdin) && !stdin
    {
      taken := stdin;
      stdin := false;
    }

    method ReceiveReady(reply: TryReply)
      modifies this`result
      ensures Value() == ReceiveNonblocking(old(Value()), reply)
    {
      if result.Some? {
        return;
      }
      match reply {
        case Got(message) => result := Some(message);
        case Empty =>
        case Closed => result := Some(CHANNEL_FAILURE);
      }
    }

    method Poll(reply: TryReply) returns (view: PollView)
      modifies this`result
      ensures Value() == ReceiveNonblocking(old(Value()), reply)
      ensures view == View(Value())
    {
      ReceiveReady(reply);
      match result {
        case None => view := Running;
        case Some(Ok(output)) => view := PollView.Exited(output);
        case Some(Err(error)) => view := Failed(error);
      }
    }

    method JoinAfterResult(panicked: bool)
      requires result.Some?
      modifies this`supervisor, this`result
      ensures !supervisor
      ensures result == Some(if old(supervisor) then Joined(old(result).value, panicked) else old(result).value)
    {
      if !supervisor {
        return;
      }
      supervisor := false;
      if panicked {
        match result {
          case Some(Ok(output)) =>
            result := Some(Err(SupervisionFailed(Synthetic(SupervisorPanicked), output.evidence)));
          case _ =>
        }
      }
    }

    method Wait(message: Option<RunResult>, panicked: bool) returns (r: RunResult)
      modifies this
      ensures r == WaitResult(old(Value()), message, panicked)
      ensures !stdin && !supervisor && result.None? && requests == old(requests)
    {
      stdin := false;
      if result.None? {
        result := Some(if message.Some? then message.value else CHANNEL_FAILURE);
      }
      JoinAfterResult(panicked);
      r := result.value;
      result := None;
    }

    method Cancel(message: Option<RunResult>, panicked: bool) returns (r: Result<LifecycleEvidence, Error>)
      modifies this
      ensures r == CancelOutcome(WaitResult(old(Value()), message, panicked))
      ensures !stdin && !supervisor && result.None? && requests == old(requests) + 1
    {
      requests := requests + 1;
      var waited := Wait(message, panicked);
      match waited {
        case Ok(output) => r := Ok(output.evidence);
        case Err(error) =>
          if error.Cancelled? && CancellationSettled(error.evidence) {
            r := Ok(error.evidence);
          } else {
            r := Err(error);
          }
      }
    }

    /** `Drop`: asks for cancellation exactly when a result is still outstanding, and never waits. */
    method Drop()
      modifies this
      ensures requests == old(requests) + (if old(supervisor) && old(result).None? then 1 else 0)
      ensures !supervisor && result == old(result)
      ensures stdin == (old(stdin) && !(old(supervisor) && old(result).None?))
    {
      if !supervisor {
        return;
      }
      if result.None? {
        stdin := false;
        requests := requests + 1;
      }
      supervisor := false;
    }
  }
}
