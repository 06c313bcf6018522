/** What becomes of every answer of the environment in a streaming run. */
module ManagedAnswers {
  import opened Base
  import opened Outcome
  import opened Policy
  import opened Lifecycle
  import opened Executor
  import opened ExecutorAnswers
  import opened Managed
  import opened ManagedTheorems

  // ---------------------------------------------------------------------------------------------
  // Requests.

  /** A look at the channel that was taken in turn `i` did not find it open and empty. */
  ghost predicate WatchHeard(p: Plan, s: Watch, turns: seq<WatchTurn>, i: nat) {
    && i < |turns|
    && ((i < WatchTurns(p, s, turns) && turns[i].tried != Quiet)
        || (i + 1 < WatchTurns(p, s, turns) && turns[i].received != Quiet))
  }

  ghost predicate SettleHeard(s: Watch, until: nat, turns: seq<SettleTurn>, i: nat) {
    i < |turns| && i < SettleWaits(s, until, turns) && turns[i].received != Quiet
  }

  ghost predicate SettlingHeard(s: Watch, w: Script, i: nat) {
    SettleHeard(KillWatched(s, w.kill), SettleUntil(s, w), w.settle, i)
  }

  lemma {:induction false} WatchHeardOrigin(p: Plan, s: Watch, turns: seq<WatchTurn>) returns (i: nat)
    requires !s.core.seen.cancelled && WatchLoop(p, s, turns).state.core.seen.cancelled
    requires WatchLoop(p, s, turns).Done?
    ensures WatchHeard(p, s, turns, i)
    decreases |turns|
  {
    i := 0;
    var once := WatchOnce(p, s, turns[0]);
    if once.Pending? && turns[0].received == Quiet {
      var j := WatchHeardOrigin(p, once.state, turns[1..]);
      i := j + 1;
    } else if once.Pending? {
      assert turns[1..] != [];
    }
  }

  lemma {:induction false} SettleHeardOrigin(s: Watch, until: nat, turns: seq<SettleTurn>) returns (i: nat)
    requires !s.core.seen.cancelled && SettleLoop(s, until, turns).state.core.seen.cancelled
    ensures SettleHeard(s, until, turns, i)
    decreases |turns|
  {
    i := 0;
    var once := SettleOnce(s, until, turns[0]);
    if turns[0].received == Quiet {
      var j := SettleHeardOrigin(once.state, until, turns[1..]);
      i := j + 1;
    }
  }

  lemma SettlingHeardOrigin(s: Watch, w: Script) returns (i: nat)
    requires !s.core.seen.cancelled && SettleAfterKill(s, w).state.core.seen.cancelled
    ensures SettlingHeard(s, w, i)
  {
    i := SettleHeardOrigin(KillWatched(s, w.kill), SettleUntil(s, w), w.settle);
  }

  lemma HeardIsCancelled(p: Plan, s: Watch, w: Script, i: nat)
    requires WatchHeard(p, s, w.watch, i) || SettlingHeard(WatchLoop(p, s, w.watch).state, w, i)
    ensures SettleAfterKill(WatchLoop(p, s, w.watch).state, w).state.core.seen.cancelled
  {
    WatchHears(p, s, w.watch, i);
    SettlingHears(WatchLoop(p, s, w.watch).state, w, i);
  }

  ghost predicate AnyRequest(p: Plan, start: nat, w: Script) {
    var s := Watch(NewCore(), start);
    exists i :: WatchHeard(p, s, w.watch, i) || SettlingHeard(WatchLoop(p, s, w.watch).state, w, i)
  }

  /** How the loops of a reported run ended, and that what they saw is what it reports. */
  lemma ReportedLoops(p: Plan, start: nat, w: Script)
    requires p.started <= start && RunManaged(p, start, w).Reported?
    ensures var watched := WatchLoop(p, Watch(NewCore(), start), w.watch); var end := RunManaged(p, start, w);
      && watched.Done? && end.last == SettleAfterKill(watched.state, w).state
      && end.core.seen.cancelled == end.last.core.seen.cancelled
      && end.core.seen.observeError == end.last.core.seen.observeError
      && end.core.seen.deadlineElapsed == watched.state.core.seen.deadlineElapsed
      && end.evidence.leaderStatus == end.last.core.status
      && Some(end.evidence.signal) == end.last.core.signal
  {
    ReportedAs(p, start, w);
  }

  /** A streaming run is `Cancelled` iff some look it took at the channel found a message or a hangup. */
  lemma RequestsAreExact(p: Plan, start: nat, w: Script)
    requires p.started <= start && RunManaged(p, start, w).Reported?
    ensures var end := RunManaged(p, start, w); var r := end.result;
      && (Has(end.dropped.history, CancelSeen) <==> AnyRequest(p, start, w))
      && ((r.Err? && r.error.Cancelled?) <==> AnyRequest(p, start, w))
  {
    var first := Watch(NewCore(), start);
    var s := WatchLoop(p, first, w.watch).state;
    ReportedLoops(p, start, w);
    if SettleAfterKill(s, w).state.core.seen.cancelled {
      if s.core.seen.cancelled {
        var i := WatchHeardOrigin(p, first, w.watch);
        assert WatchHeard(p, first, w.watch, i);
      } else {
        var i := SettlingHeardOrigin(s, w);
        assert SettlingHeard(s, w, i);
      }
    }
    if i: nat :| WatchHeard(p, first, w.watch, i) || SettlingHeard(s, w, i) {
      HeardIsCancelled(p, first, w, i);
    }
    SeenRequestIsReported(p, start, w);
  }

  lemma SeenRequestIsReported(p: Plan, start: nat, w: Script)
    requires p.started <= start && RunManaged(p, start, w).Reported?
    ensures var end := RunManaged(p, start, w); var r := end.result;
      && (Has(end.dropped.history, CancelSeen) <==> end.core.seen.cancelled)
      && ((r.Err? && r.error.Cancelled?) <==> end.core.seen.cancelled)
  {
    ReportedAs(p, start, w);
    ManagedEvidenceIsTruthful(p, start, w);
  }

  // ---------------------------------------------------------------------------------------------
  // The deadline.

  ghost predicate WatchLate(p: Plan, s: Watch, turns: seq<WatchTurn>, i: nat) {
    && i < |turns| && i < WatchTurns(p, s, turns)
    && DeadlinePassed(p.deadline, WatchLoop(p, s, turns[..i]).state.now + turns[i].beforeSample)
  }

  lemma {:induction false} WatchLateOrigin(p: Plan, s: Watch, turns: seq<WatchTurn>) returns (i: nat)
    requires !s.core.seen.deadlineElapsed && WatchLoop(p, s, turns).state.core.seen.deadlineElapsed
    ensures WatchLate(p, s, turns, i)
    decreases |turns|
  {
    i := 0;
    var once := WatchOnce(p, s, turns[0]);
    if once.Pending? {
      var j := WatchLateOrigin(p, once.state, turns[1..]);
      i := j + 1;
      assert turns[..i][0] == turns[0] && turns[..i][1..] == turns[1..][..j];
    } else {
      assert turns[..0] == [];
    }
  }

  lemma {:induction false} WatchLateIsSeen(p: Plan, s: Watch, turns: seq<WatchTurn>, i: nat)
    requires WatchLate(p, s, turns, i)
    ensures WatchLoop(p, s, turns).state.core.seen.deadlineElapsed
    decreases |turns|
  {
    if i > 0 {
      assert turns[..i][0] == turns[0] && turns[..i][1..] == turns[1..][..i - 1];
      WatchLateIsSeen(p, WatchOnce(p, s, turns[0]).state, turns[1..], i - 1);
    } else {
      assert turns[..0] == [];
    }
  }

  /** A streaming run times out iff its observation loop sampled late and nobody asked for cancellation. */
  lemma ManagedDeadlineIsExact(p: Plan, start: nat, w: Script)
    requires p.started <= start && RunManaged(p, start, w).Reported?
    requires p.deadline.Some? <==> p.configured.Some?
    ensures var r := RunManaged(p, start, w).result;
      (r.Err? && r.error.Timeout?) <==>
        !AnyRequest(p, start, w) && exists i :: WatchLate(p, Watch(NewCore(), start), w.watch, i)
  {
    var first := Watch(NewCore(), start);
    ManagedTimeoutsPrecedeTheKill(p, start, w);
    RequestsAreExact(p, start, w);
    if WatchLoop(p, first, w.watch).state.core.seen.deadlineElapsed {
      var i := WatchLateOrigin(p, first, w.watch);
      assert WatchLate(p, first, w.watch, i);
    }
    if i: nat :| WatchLate(p, first, w.watch, i) {
      WatchLateIsSeen(p, first, w.watch, i);
    }
  }

  // ---------------------------------------------------------------------------------------------
  // Errors of `waitid`.

  ghost predicate WatchError(p: Plan, s: Watch, turns: seq<WatchTurn>, i: nat, error: KernelError) {
    i < |turns| && i < WatchTurns(p, s, turns) && turns[i].leader == ObserveFailed(error)
  }

  ghost predicate SettleError(s: Watch, until: nat, turns: seq<SettleTurn>, i: nat, error: KernelError) {
    && i < |turns| && SettleLoop(s, until, turns[..i]).Pending?
    && SettleLoop(s, until, turns[..i]).state.now + turns[i].beforeGuard < until
    && Asks(SettleLoop(s, until, turns[..i]).state.core) && turns[i].leader == ObserveFailed(error)
  }

  ghost predicate SettlingError(s: Watch, w: Script, i: nat, error: KernelError) {
    SettleError(KillWatched(s, w.kill), SettleUntil(s, w), w.settle, i, error)
  }

  lemma {:induction false} WatchErrorOrigin(p: Plan, s: Watch, turns: seq<WatchTurn>, error: KernelError)
    returns (i: nat)
    requires s.core.seen.observeError.None? && WatchLoop(p, s, turns).state.core.seen.observeError == Some(error)
    ensures WatchError(p, s, turns, i, error)
    decreases |turns|
  {
    i := 0;
    var once := WatchOnce(p, s, turns[0]);
    if once.Pending? {
      var j := WatchErrorOrigin(p, once.state, turns[1..], error);
      i := j + 1;
    }
  }

  lemma {:induction false} WatchErrorIsSeen(p: Plan, s: Watch, turns: seq<WatchTurn>, i: nat, error: KernelError)
    requires Asks(s.core) && WatchError(p, s, turns, i, error)
    ensures WatchLoop(p, s, turns).state.core.seen.observeError == Some(error)
    decreases |turns|
  {
    if i > 0 {
      var once := WatchOnce(p, s, turns[0]);
      WatchErrorIsSeen(p, once.state, turns[1..], i - 1, error);
    }
  }

  lemma {:induction false} SettleKeepsError(s: Watch, until: nat, turns: seq<SettleTurn>)
    requires s.core.seen.observeError.Some?
    ensures SettleLoop(s, until, turns).state.core.seen.observeError == s.core.seen.observeError
    decreases |turns|
  {
    if turns != [] {
      SettleKeepsError(SettleOnce(s, until, turns[0]).state, until, turns[1..]);
    }
  }

  lemma SettleTurnError(s: Watch, until: nat, t: SettleTurn)
    requires s.core.seen.observeError.None?
    ensures var asked := s.now + t.beforeGuard < until && Asks(s.core) && t.leader.ObserveFailed?;
      SettleOnce(s, until, t).state.core.seen.observeError == if asked then Some(t.leader.error) else None
    ensures var asked := s.now + t.beforeGuard < until && Asks(s.core) && t.leader.ObserveFailed?;
      asked ==> SettleOnce(s, until, t).Pending?
  {
  }

  lemma {:induction false} SettleErrorOrigin(s: Watch, until: nat, turns: seq<SettleTurn>, error: KernelError)
    returns (i: nat)
    requires s.core.seen.observeError.None? && SettleLoop(s, until, turns).state.core.seen.observeError == Some(error)
    ensures SettleError(s, until, turns, i, error)
    decreases |turns|
  {
    i := 0;
    var once := SettleOnce(s, until, turns[0]);
    SettleTurnError(s, until, turns[0]);
    if once.state.core.seen.observeError.Some? {
      assert turns[..0] == [];
      SettleKeepsError(once.state, until, turns[1..]);
    } else {
      var j := SettleErrorOrigin(once.state, until, turns[1..], error);
      i := j + 1;
      assert turns[..i][0] == turns[0] && turns[..i][1..] == turns[1..][..j];
    }
  }

  lemma {:induction false} SettleErrorIsSeen(s: Watch, until: nat, turns: seq<SettleTurn>, i: nat, error: KernelError)
    requires SettleError(s, until, turns, i, error)
    ensures SettleLoop(s, until, turns).state.core.seen.observeError == Some(error)
    decreases |turns|
  {
    var once := SettleOnce(s, until, turns[0]);
    if i == 0 {
      assert turns[..0] == [];
      SettleTurnError(s, until, turns[0]);
      SettleKeepsError(once.state, until, turns[1..]);
    } else {
      assert turns[..i][0] == turns[0] && turns[..i][1..] == turns[1..][..i - 1];
      SettleErrorIsSeen(once.state, until, turns[1..], i - 1, error);
    }
  }

  lemma SettlingErrors(s: Watch, w: Script, error: KernelError)
    ensures s.core.seen.observeError.Some? ==>
              SettleAfterKill(s, w).state.core.seen.observeError == s.core.seen.observeError
    ensures s.core.seen.observeError.None? ==>
              (SettleAfterKill(s, w).state.core.seen.observeError == Some(error) <==>
                exists i :: SettlingError(s, w, i, error))
  {
    var k, until := KillWatched(s, w.kill), SettleUntil(s, w);
    if s.core.seen.observeError.Some? {
      SettleKeepsError(k, until, w.settle);
    } else {
      if SettleLoop(k, until, w.settle).state.core.seen.observeError == Some(error) {
        var i := SettleErrorOrigin(k, until, w.settle, error);
        assert SettlingError(s, w, i, error);
      }
      if i: nat :| SettlingError(s, w, i, error) {
        SettleErrorIsSeen(k, until, w.settle, i, error);
      }
    }
  }

  lemma WatchErrors(p: Plan, s: Watch, turns: seq<WatchTurn>, error: KernelError)
    requires Asks(s.core)
    ensures WatchLoop(p, s, turns).state.core.seen.observeError == Some(error) <==>
              exists i :: WatchError(p, s, turns, i, error)
  {
    if WatchLoop(p, s, turns).state.core.seen.observeError == Some(error) {
      var i := WatchErrorOrigin(p, s, turns, error);
      assert WatchError(p, s, turns, i, error);
    }
    if i: nat :| WatchError(p, s, turns, i, error) {
      WatchErrorIsSeen(p, s, turns, i, error);
    }
  }

  /**
   * A streaming run records an error iff `waitid` answered a question of it with that very error: in
   * its observation loop, or else in its cleanup.
   */
  lemma ManagedErrorsAreExact(p: Plan, start: nat, w: Script, error: KernelError)
    requires p.started <= start && RunManaged(p, start, w).Reported?
    ensures var first := Watch(NewCore(), start); var s := WatchLoop(p, first, w.watch).state;
      RunManaged(p, start, w).core.seen.observeError == Some(error) <==>
        || (exists i :: WatchError(p, first, w.watch, i, error))
        || (s.core.seen.observeError.None? && exists i :: SettlingError(s, w, i, error))
  {
    var first := Watch(NewCore(), start);
    ReportedLoops(p, start, w);
    WatchErrors(p, first, w.watch, error);
    SettlingErrors(WatchLoop(p, first, w.watch).state, w, error);
  }

  // ---------------------------------------------------------------------------------------------
  // The budget, the leader, the signal and the streams.

  /** The same budget as a capturing run has, counted from the same instant. */
  lemma ManagedBudgetStartsBeforeTheKill(s: Watch, w: Script)
    ensures var before := s.now + w.kill.beforeSample;
      SettleUntil(s, w) == before + (if before + CLEANUP_BUDGET <= w.lastInstant then 2_000_000_000 else 0)
  {
  }

  /** Cleanup turn `i` finds the leader waitable, waits for it, and is the last one. */
  ghost predicate SettleReaps(s: Watch, until: nat, turns: seq<SettleTurn>, i: nat) {
    && i < |turns| && SettleLoop(s, until, turns[..i]).Pending?
    && var before := SettleLoop(s, until, turns[..i]).state;
       && before.now + turns[i].beforeGuard < until
       && (before.core.seen.leaderWaitable || (Asks(before.core) && turns[i].leader.Waitable?))
  }

  ghost predicate SettlingReaps(s: Watch, w: Script, i: nat) {
    SettleReaps(KillWatched(s, w.kill), SettleUntil(s, w), w.settle, i)
  }

  lemma {:induction false} ReapingTurn(s: Watch, until: nat, turns: seq<SettleTurn>, i: nat)
    requires s.core.owned.child && SettleReaps(s, until, turns, i)
    ensures turns[i].wait.Exited? ==>
              SettleLoop(s, until, turns).state.core.status == Some(turns[i].wait.status)
    decreases |turns|
  {
    if i == 0 {
      assert turns[..0] == [];
    } else {
      assert turns[..i][0] == turns[0] && turns[..i][1..] == turns[1..][..i - 1];
      ReapingTurn(SettleOnce(s, until, turns[0]).state, until, turns[1..], i - 1);
    }
  }

  lemma {:induction false} ReapOrigin(s: Watch, until: nat, turns: seq<SettleTurn>) returns (i: nat)
    requires s.core.owned.child && s.core.status.None? && SettleLoop(s, until, turns).state.core.status.Some?
    ensures SettleReaps(s, until, turns, i) && turns[i].wait.Exited?
    decreases |turns|
  {
    i := 0;
    var once := SettleOnce(s, until, turns[0]);
    if once.Pending? {
      var j := ReapOrigin(once.state, until, turns[1..]);
      i := j + 1;
      assert turns[..i][0] == turns[0] && turns[..i][1..] == turns[1..][..j];
    } else {
      assert turns[..0] == [];
    }
  }

  lemma SettlingStatus(s: Watch, w: Script, status: ExitStatus)
    requires s.core.owned.child && s.core.status.None?
    ensures SettleAfterKill(s, w).state.core.status == Some(status) <==>
              exists i: nat :: SettlingReaps(s, w, i) && w.settle[i].wait == WaitReply.Exited(status)
  {
    var k, until := KillWatched(s, w.kill), SettleUntil(s, w);
    if SettleLoop(k, until, w.settle).state.core.status == Some(status) {
      var i := ReapOrigin(k, until, w.settle);
      ReapingTurn(k, until, w.settle, i);
      assert SettlingReaps(s, w, i) && w.settle[i].wait == WaitReply.Exited(status);
    }
    if i: nat :| SettlingReaps(s, w, i) && w.settle[i].wait == WaitReply.Exited(status) {
      ReapingTurn(k, until, w.settle, i);
    }
  }

  /** The reported status is the answer of the wait the run made, and there is one iff it made it. */
  lemma ManagedStatusIsExact(p: Plan, start: nat, w: Script, status: ExitStatus)
    requires p.started <= start && RunManaged(p, start, w).Reported?
    ensures var s := WatchLoop(p, Watch(NewCore(), start), w.watch).state;
      RunManaged(p, start, w).evidence.leaderStatus == Some(status) <==>
        exists i: nat :: SettlingReaps(s, w, i) && w.settle[i].wait == WaitReply.Exited(status)
  {
    ReportedLoops(p, start, w);
    WatchedSound(p, start, w);
    var s := WatchLoop(p, Watch(NewCore(), start), w.watch).state;
    WatchingHasNoStatus(s.core);
    SettlingStatus(s, w, status);
  }

  lemma WatchingHasNoStatus(k: Core)
    requires Watching(k)
    ensures k.status.None? && k.owned.child
  {
  }

  lemma SettlingSignal(s: Watch, w: Script)
    ensures SettleAfterKill(s, w).state.core.signal.Some?
    ensures Tells(SettleAfterKill(s, w).state.core.signal.value, w.kill.reply)
  {
    SettleLoopForward(KillWatched(s, w.kill), SettleUntil(s, w), w.settle);
  }

  /** The reported signal is the answer of `kill`, and both streams are reported as the caller's own. */
  lemma ManagedSignalIsExact(p: Plan, start: nat, w: Script)
    requires p.started <= start && RunManaged(p, start, w).Reported?
    ensures var end := RunManaged(p, start, w); var e := end.evidence; var h := end.dropped.history;
      && Tells(e.signal, w.kill.reply)
      && FirstKill(h).Some? && Tells(e.signal, FirstKill(h).value)
      && e.stdout == CaptureReport(Stdout, CapturedStream([], Redirected), None)
      && e.stderr == CaptureReport(Stderr, CapturedStream([], Redirected), None)
      && e.reap.failures == FailuresIn(end.core.owned.history)
  {
    ReportedLoops(p, start, w);
    SettlingSignal(WatchLoop(p, Watch(NewCore(), start), w.watch).state, w);
    ManagedEvidenceIsTruthful(p, start, w);
    FirstSignalTells(RunManaged(p, start, w).dropped.history);
    ReportedAs(p, start, w);
    TransferParts(RunManaged(p, start, w).last.core, w.farewell.reaperAlive);
  }
}
