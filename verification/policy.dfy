/** Invocation policies and the supervisor's fixed time constants (policy.rs). Times are in nanoseconds. */
module Policy {
  import opened Base
  import opened Outcome

  const EVENT_QUANTUM: nat := 10_000_000
  const CLEANUP_BUDGET: nat := 2_000_000_000
  const CLEANUP_ALLOWANCE: nat := 2_100_000_000

  /** Waits of one quantum in a cleanup budget. */
  const QUANTA: nat := CLEANUP_BUDGET / EVENT_QUANTUM

  datatype OverflowBehavior = FailClosed | TruncateAndDrain

  datatype CapturePolicy = BoundedCapture(limit: nat, overflow: OverflowBehavior) | UnboundedCapture

  datatype ExecutionPolicy = Deadline(after: nat) | NoDeadline {
    function Duration(): Option<nat> {
      match this
      case Deadline(after) => Some(after)
      case NoDeadline => None
    }

    /** The instant the run must settle by; a clock that cannot represent it refuses the run. */
    function DeadlineFrom(started: nat, lastInstant: nat): Result<Option<nat>, Error> {
      match this
      case Deadline(after) =>
        if started + after <= lastInstant then Ok(Some(started + after)) else Err(DeadlineOverflow(after))
      case NoDeadline => Ok(None)
    }
  }
}
