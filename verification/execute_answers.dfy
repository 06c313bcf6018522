/**
 * What becomes of every answer of the environment in a captured run: each observation, result and
 * piece of evidence exactly when, and only when, some answer asked for it.
 */
module ExecutorAnswers {
  import opened Base
  import opened Outcome
  import opened Policy
  import opened Capture
  import opened Lifecycle
  import opened Classification
  import opened Executor
  import opened ExecutorTheorems
  import opened ExecutorCauses

  // ---------------------------------------------------------------------------------------------
  // Launch.

  predicate Representable(c: Command, l: Launch) {
    c.execution.Deadline? ==> l.started + c.execution.after <= l.lastInstant
  }

  /**
   * A run is refused by the first of reaper, deadline and spawn that fails, with exactly that error,
   * and has then done nothing; it goes on iff all three succeed.
   */
  lemma RefusalsAreExact(c: Command, w: World, error: KernelError, after: nat)
    ensures Run(c, w) == Refused(ReaperStartFailed(error)) <==> w.launch.reaper == Some(error)
    ensures Run(c, w) == Refused(DeadlineOverflow(after)) <==>
              w.launch.reaper.None? && c.execution == Deadline(after) && w.launch.started + after > w.launch.lastInstant
    ensures Run(c, w) == Refused(SpawnFailed(error)) <==>
              w.launch.reaper.None? && Representable(c, w.launch) && w.launch.spawn == Some(error)
    ensures !Run(c, w).Refused? <==>
              w.launch.reaper.None? && Representable(c, w.launch) && w.launch.spawn.None?
    ensures Run(c, w).Refused? ==>
              Returned(Run(c, w)) == Some(Err(Run(c, w).error)) && HistoryOf(Run(c, w)) == Start
  {
  }

  // ---------------------------------------------------------------------------------------------
  // Cancellation.

  lemma {:induction false} MainFlagOrigin(p: Plan, s: Exec, turns: seq<MainTurn>) returns (i: nat)
    requires !s.core.seen.cancelled && MainLoop(p, s, turns).state.core.seen.cancelled
    ensures MainFlag(p, s, turns, i)
    decreases |turns|
  {
    i := 0;
    if !turns[0].cancelled {
      var j := MainFlagOrigin(p, MainOnce(p, s, turns[0]).state, turns[1..]);
      i := j + 1;
    }
  }

  lemma CleanTurnFlag(p: Plan, s: Exec, until: nat, t: CleanTurn)
    requires !s.core.seen.cancelled
    ensures CleanOnce(p, s, until, t).state.core.seen.cancelled <==> s.now + t.beforeGuard < until && t.cancelled
  {
    var phase := ReapPhase(p, s, until, t);
    assert phase.state.core.seen.cancelled <==> s.now + t.beforeGuard < until && t.cancelled;
  }

  lemma {:induction false} CleanFlagOrigin(p: Plan, s: Exec, until: nat, turns: seq<CleanTurn>) returns (i: nat)
    requires !s.core.seen.cancelled && CleanLoop(p, s, until, turns).state.core.seen.cancelled
    ensures CleanFlag(p, s, until, turns, i)
    decreases |turns|
  {
    i := 0;
    CleanTurnFlag(p, s, until, turns[0]);
    var once := CleanOnce(p, s, until, turns[0]);
    if !once.state.core.seen.cancelled {
      assert once.Ongoing?;
      TakenGuard(p, s, until, turns[0]);
      var j := CleanFlagOrigin(p, once.state, until, turns[1..]);
      i := j + 1;
    }
  }

  lemma TakenGuard(p: Plan, s: Exec, until: nat, t: CleanTurn)
    ensures CleanOnce(p, s, until, t).Ongoing? ==> s.now + t.beforeGuard < until
  {
  }

  lemma CleanupFlagOrigin(p: Plan, s: Exec, w: World) returns (i: nat)
    requires !s.core.seen.cancelled && Cleanup(p, s, w).state.core.seen.cancelled
    ensures CleanupFlag(p, s, w, i)
  {
    i := CleanFlagOrigin(p, KillGroup(s, w.kill), CleanupUntil(s, w), w.clean);
  }

  /** The caller's flag was set at one of the samples the run took. */
  ghost predicate AnyFlag(c: Command, w: World)
    requires Refusal(c, w.launch).None?
  {
    var p, o := PlanOf(c, w.launch), FirstState(c, w.launch);
    exists i :: MainFlag(p, o, w.main, i) || CleanupFlag(p, MainLoop(p, o, w.main).state, w, i)
  }

  lemma SeenFlagHasAnOrigin(c: Command, w: World)
    requires Run(c, w).Finished? && Run(c, w).last.core.seen.cancelled
    ensures AnyFlag(c, w)
  {
    RunAs(c, w);
    var p, o := PlanOf(c, w.launch), FirstState(c, w.launch);
    var s := MainLoop(p, o, w.main).state;
    if s.core.seen.cancelled {
      var i := MainFlagOrigin(p, o, w.main);
      assert MainFlag(p, o, w.main, i);
    } else {
      var i := CleanupFlagOrigin(p, s, w);
      assert CleanupFlag(p, s, w, i);
    }
  }

  lemma FlagIsSeen(c: Command, w: World)
    requires Run(c, w).Finished? && Refusal(c, w.launch).None? && AnyFlag(c, w)
    ensures Run(c, w).last.core.seen.cancelled
  {
    RunAs(c, w);
    var p, o := PlanOf(c, w.launch), FirstState(c, w.launch);
    var s := MainLoop(p, o, w.main).state;
    var i :| MainFlag(p, o, w.main, i) || CleanupFlag(p, s, w, i);
    MainFlagSticks(p, o, w.main, i);
    CleanupFlagSticks(p, s, w, i);
  }

  lemma LastObservationsAreFinal(c: Command, w: World)
    requires Run(c, w).Finished?
    ensures var end := Run(c, w);
      && Refusal(c, w.launch).None?
      && end.core.seen.cancelled == end.last.core.seen.cancelled
      && end.core.seen.deadlineElapsed == end.last.core.seen.deadlineElapsed
      && end.core.seen.observeError == end.last.core.seen.observeError
  {
    FinishedAs(c, w);
  }

  /**
   * Cancellation is exact: a finished run has seen it iff the flag was set at some sample it took, and
   * is `Cancelled` iff in addition no capture limit was exceeded.
   */
  lemma CancellationIsExact(c: Command, w: World)
    requires Run(c, w).Finished?
    ensures Refusal(c, w.launch).None?
    ensures var end := Run(c, w); var r := end.result;
      && (Has(HistoryOf(end), CancelSeen) <==> AnyFlag(c, w))
      && ((r.Err? && r.error.Cancelled?) <==>
            AnyFlag(c, w) && !Exceeded(end.last.out) && !Exceeded(end.last.err))
  {
    LastObservationsAreFinal(c, w);
    UnseenCauses(c, w);
    if Run(c, w).last.core.seen.cancelled {
      SeenFlagHasAnOrigin(c, w);
    }
    if AnyFlag(c, w) {
      FlagIsSeen(c, w);
    }
    SeenCancelIsReported(c, w);
  }

  lemma SeenCancelIsReported(c: Command, w: World)
    requires Run(c, w).Finished?
    ensures var end := Run(c, w); var r := end.result;
      && ((r.Err? && r.error.Cancelled?) <==>
            end.core.seen.cancelled && !Exceeded(end.last.out) && !Exceeded(end.last.err))
      && ((r.Err? && r.error.Timeout?) <==>
            && end.core.seen.deadlineElapsed && !end.core.seen.cancelled
            && !Exceeded(end.last.out) && !Exceeded(end.last.err))
  {
    FinishedAs(c, w);
    FinishedStreams(c, w);
    var end := Run(c, w);
    OverflowMeansExceeded(end.last.out);
    OverflowMeansExceeded(end.last.err);
    DeadlineIsConfigured(c, w);
    SampledVerdicts(end.core.seen, end.last.out.overflow, end.last.err.overflow, c.execution.Duration(), end.evidence);
  }

  lemma DeadlineIsConfigured(c: Command, w: World)
    requires Run(c, w).Finished?
    ensures Run(c, w).core.seen.deadlineElapsed ==> c.execution.Duration().Some?
  {
    FinishedCore(c, w);
    FinishedAs(c, w);
  }

  lemma SampledVerdicts(seen: Observations, outOverflow: Option<nat>, errOverflow: Option<nat>, configured: Option<nat>,
                        e: LifecycleEvidence)
    requires seen.deadlineElapsed ==> configured.Some?
    ensures var r := Classify(ChoosePrimary(seen, outOverflow, errOverflow), configured, e);
      && ((r.Err? && r.error.Cancelled?) <==> seen.cancelled && outOverflow.None? && errOverflow.None?)
      && ((r.Err? && r.error.Timeout?) <==>
            seen.deadlineElapsed && !seen.cancelled && outOverflow.None? && errOverflow.None?)
  {
  }

  // ---------------------------------------------------------------------------------------------
  // The deadline.

  /** Supervision turn `i` is taken, and its sample comes at the deadline or later. */
  ghost predicate MainLate(p: Plan, s: Exec, turns: seq<MainTurn>, i: nat) {
    && i < |turns| && i < MainTurns(p, s, turns)
    && DeadlinePassed(p.deadline, MainLoop(p, s, turns[..i]).state.now + turns[i].beforeSample)
  }

  ghost predicate CleanupLate(p: Plan, s: Exec, w: World, i: nat) {
    TakenLate(p, KillGroup(s, w.kill), CleanupUntil(s, w), w.clean, i)
  }

  lemma {:induction false} MainLateOrigin(p: Plan, s: Exec, turns: seq<MainTurn>) returns (i: nat)
    requires !s.core.seen.deadlineElapsed && MainLoop(p, s, turns).state.core.seen.deadlineElapsed
    ensures MainLate(p, s, turns, i)
    decreases |turns|
  {
    i := 0;
    var once := MainOnce(p, s, turns[0]);
    if once.Ongoing? {
      var j := MainLateOrigin(p, once.state, turns[1..]);
      i := j + 1;
      assert turns[..i][0] == turns[0] && turns[..i][1..] == turns[1..][..j];
    } else {
      assert turns[..0] == [];
    }
  }

  lemma {:induction false} MainLateIsSeen(p: Plan, s: Exec, turns: seq<MainTurn>, i: nat)
    requires MainLate(p, s, turns, i)
    ensures Late(p, MainLoop(p, s, turns).state)
    decreases |turns|
  {
    var once := MainOnce(p, s, turns[0]);
    if i > 0 {
      assert turns[..i][0] == turns[0] && turns[..i][1..] == turns[1..][..i - 1];
      MainLateIsSeen(p, once.state, turns[1..], i - 1);
    } else {
      assert turns[..0] == [];
    }
  }

  lemma CleanTurnLate(p: Plan, s: Exec, until: nat, t: CleanTurn)
    requires !s.core.seen.deadlineElapsed
    ensures CleanOnce(p, s, until, t).state.core.seen.deadlineElapsed <==>
              s.now + t.beforeGuard < until && DeadlinePassed(p.deadline, SampledAt(s, t))
  {
    var phase := ReapPhase(p, s, until, t);
    assert phase.state.core.seen.deadlineElapsed <==>
        s.now + t.beforeGuard < until && DeadlinePassed(p.deadline, SampledAt(s, t));
  }

  lemma {:induction false} CleanLateOrigin(p: Plan, s: Exec, until: nat, turns: seq<CleanTurn>) returns (i: nat)
    requires !s.core.seen.deadlineElapsed && CleanLoop(p, s, until, turns).state.core.seen.deadlineElapsed
    ensures TakenLate(p, s, until, turns, i)
    decreases |turns|
  {
    i := 0;
    CleanTurnLate(p, s, until, turns[0]);
    var once := CleanOnce(p, s, until, turns[0]);
    if once.state.core.seen.deadlineElapsed {
      assert turns[..0] == [];
    } else {
      assert once.Ongoing?;
      TakenGuard(p, s, until, turns[0]);
      var j := CleanLateOrigin(p, once.state, until, turns[1..]);
      i := j + 1;
      assert turns[..i][0] == turns[0] && turns[..i][1..] == turns[1..][..j];
    }
  }

  lemma CleanupLateOrigin(p: Plan, s: Exec, w: World) returns (i: nat)
    requires !s.core.seen.deadlineElapsed && Cleanup(p, s, w).state.core.seen.deadlineElapsed
    ensures CleanupLate(p, s, w, i)
  {
    i := CleanLateOrigin(p, KillGroup(s, w.kill), CleanupUntil(s, w), w.clean);
  }

  lemma CleanupStaysLate(p: Plan, s: Exec, w: World, i: nat)
    requires Late(p, s) || CleanupLate(p, s, w, i)
    ensures Cleanup(p, s, w).state.core.seen.deadlineElapsed
  {
    LatenessSticks(p, KillGroup(s, w.kill), CleanupUntil(s, w), w.clean, i);
  }

  /** Some sample the run took came at the deadline or later. */
  ghost predicate AnyLate(c: Command, w: World)
    requires Refusal(c, w.launch).None?
  {
    var p, o := PlanOf(c, w.launch), FirstState(c, w.launch);
    exists i :: MainLate(p, o, w.main, i) || CleanupLate(p, MainLoop(p, o, w.main).state, w, i)
  }

  lemma SeenDeadlineHasAnOrigin(c: Command, w: World)
    requires Run(c, w).Finished? && Run(c, w).last.core.seen.deadlineElapsed
    ensures AnyLate(c, w)
  {
    RunAs(c, w);
    var p, o := PlanOf(c, w.launch), FirstState(c, w.launch);
    var s := MainLoop(p, o, w.main).state;
    if s.core.seen.deadlineElapsed {
      var i := MainLateOrigin(p, o, w.main);
      assert MainLate(p, o, w.main, i);
    } else {
      var i := CleanupLateOrigin(p, s, w);
      assert CleanupLate(p, s, w, i);
    }
  }

  lemma LateSampleIsSeen(c: Command, w: World)
    requires Run(c, w).Finished? && Refusal(c, w.launch).None? && AnyLate(c, w)
    ensures Run(c, w).last.core.seen.deadlineElapsed
  {
    RunAs(c, w);
    var p, o := PlanOf(c, w.launch), FirstState(c, w.launch);
    var s := MainLoop(p, o, w.main).state;
    var i :| MainLate(p, o, w.main, i) || CleanupLate(p, s, w, i);
    if MainLate(p, o, w.main, i) {
      MainLateIsSeen(p, o, w.main, i);
    }
    CleanupStaysLate(p, s, w, i);
  }

  /**
   * The deadline is exact: a finished run has seen it iff some sample it took came no earlier, and is a
   * `Timeout` iff in addition nobody cancelled and no capture limit was exceeded.
   */
  lemma DeadlineIsExact(c: Command, w: World)
    requires Run(c, w).Finished?
    ensures Refusal(c, w.launch).None?
    ensures var end := Run(c, w); var r := end.result;
      && (Has(HistoryOf(end), DeadlineSeen) <==> AnyLate(c, w))
      && ((r.Err? && r.error.Timeout?) <==>
            AnyLate(c, w) && !AnyFlag(c, w) && !Exceeded(end.last.out) && !Exceeded(end.last.err))
  {
    LastObservationsAreFinal(c, w);
    UnseenCauses(c, w);
    if Run(c, w).last.core.seen.deadlineElapsed {
      SeenDeadlineHasAnOrigin(c, w);
    }
    if AnyLate(c, w) {
      LateSampleIsSeen(c, w);
    }
    CancellationIsExact(c, w);
    SeenCancelIsReported(c, w);
  }

  // ---------------------------------------------------------------------------------------------
  // Errors of `waitid` and `poll`.

  ghost predicate MainError(p: Plan, s: Exec, turns: seq<MainTurn>, i: nat, error: KernelError) {
    && i < |turns| && MainLoop(p, s, turns[..i]).Ongoing?
    && MeetsError(MainLoop(p, s, turns[..i]).state, MainLoop(p, s, turns[..i + 1]), turns[i], error)
  }

  /** The leader is asked about in a cleanup that holds it, has not seen it waitable and met no error. */
  ghost predicate Asks(k: Core) {
    k.owned.child && !k.seen.leaderWaitable && k.seen.observeError.None?
  }

  ghost predicate CleanError(p: Plan, s: Exec, until: nat, turns: seq<CleanTurn>, i: nat, error: KernelError) {
    || (&& i < |turns| && i < CleanTurns(p, s, until, turns)
        && Asks(CleanLoop(p, s, until, turns[..i]).state.core) && turns[i].leader == ObserveFailed(error))
    || CleanupMet(p, s, until, turns, i, error)
  }

  lemma MainTurnError(p: Plan, s: Exec, t: MainTurn, error: KernelError)
    requires s.core.seen.observeError.None?
    requires MainOnce(p, s, t).state.core.seen.observeError == Some(error)
    ensures MeetsError(s, MainOnce(p, s, t), t, error)
  {
  }

  lemma {:induction false} MainErrorOrigin(p: Plan, s: Exec, turns: seq<MainTurn>) returns (i: nat, error: KernelError)
    requires s.core.seen.observeError.None? && MainLoop(p, s, turns).state.core.seen.observeError.Some?
    ensures MainError(p, s, turns, i, error)
    ensures MainLoop(p, s, turns).state.core.seen.observeError == Some(error)
    decreases |turns|
  {
    var once := MainOnce(p, s, turns[0]);
    if once.state.core.seen.observeError.Some? {
      i, error := 0, once.state.core.seen.observeError.value;
      MainTurnError(p, s, turns[0], error);
      assert turns[..0] == [] && turns[..1] == [turns[0]];
      if once.Ongoing? {
        MainKeepsError(p, once.state, turns[1..]);
      }
    } else {
      var j;
      j, error := MainErrorOrigin(p, once.state, turns[1..]);
      i := j + 1;
      assert turns[..i][0] == turns[0] && turns[..i][1..] == turns[1..][..j];
      assert turns[..i + 1][0] == turns[0] && turns[..i + 1][1..] == turns[1..][..j + 1];
    }
  }

  lemma {:induction false} MainKeepsError(p: Plan, s: Exec, turns: seq<MainTurn>)
    requires s.core.seen.observeError.Some?
    ensures MainLoop(p, s, turns).state.core.seen.observeError == s.core.seen.observeError
    decreases |turns|
  {
    if turns != [] {
      MainKeepsError(p, MainOnce(p, s, turns[0]).state, turns[1..]);
    }
  }

  /** Exactly when and why one cleanup turn records an error. */
  lemma CleanTurnError(p: Plan, s: Exec, until: nat, t: CleanTurn)
    requires s.core.seen.observeError.None?
    ensures var once := CleanOnce(p, s, until, t);
      var asked := s.now + t.beforeGuard < until && Asks(s.core) && t.leader.ObserveFailed?;
      var polled := once.Ongoing? && t.poll.PollFailure? && (s.out.pipe.Some? || s.err.pipe.Some?);
      once.state.core.seen.observeError
      == if asked then Some(t.leader.error) else if polled then Some(t.poll.error) else None
  {
    var phase := ReapPhase(p, s, until, t);
    var asked := s.now + t.beforeGuard < until && Asks(s.core) && t.leader.ObserveFailed?;
    assert phase.state.core.seen.observeError == if asked then Some(t.leader.error) else None;
    assert phase.state.out == s.out && phase.state.err == s.err;
  }

  lemma {:induction false} CleanErrorOrigin(p: Plan, s: Exec, until: nat, turns: seq<CleanTurn>)
    returns (i: nat, error: KernelError)
    requires s.core.seen.observeError.None? && CleanLoop(p, s, until, turns).state.core.seen.observeError.Some?
    ensures CleanError(p, s, until, turns, i, error)
    ensures CleanLoop(p, s, until, turns).state.core.seen.observeError == Some(error)
    decreases |turns|
  {
    var once := CleanOnce(p, s, until, turns[0]);
    CleanTurnError(p, s, until, turns[0]);
    if once.state.core.seen.observeError.Some? {
      i, error := 0, once.state.core.seen.observeError.value;
      FirstCleanError(p, s, until, turns, error);
      if once.Ongoing? {
        CleanLoopKeepsError(p, once.state, until, turns[1..]);
      }
    } else {
      var j;
      j, error := CleanErrorOrigin(p, once.state, until, turns[1..]);
      i := j + 1;
      LaterCleanError(p, s, until, turns, j, error);
    }
  }

  lemma FirstCleanError(p: Plan, s: Exec, until: nat, turns: seq<CleanTurn>, error: KernelError)
    requires turns != [] && s.core.seen.observeError.None?
    requires CleanOnce(p, s, until, turns[0]).state.core.seen.observeError == Some(error)
    ensures CleanError(p, s, until, turns, 0, error)
  {
    CleanTurnError(p, s, until, turns[0]);
    assert turns[..0] == [] && turns[..1][0] == turns[0] && turns[..1][1..] == [];
    assert CleanLoop(p, s, until, turns[..0]) == Ongoing(s);
    var once := CleanOnce(p, s, until, turns[0]);
    assert CleanLoop(p, s, until, turns[..1]).Ongoing? == once.Ongoing?;
  }

  lemma LaterCleanError(p: Plan, s: Exec, until: nat, turns: seq<CleanTurn>, j: nat, error: KernelError)
    requires turns != [] && CleanOnce(p, s, until, turns[0]).Ongoing?
    requires CleanError(p, CleanOnce(p, s, until, turns[0]).state, until, turns[1..], j, error)
    ensures CleanError(p, s, until, turns, j + 1, error)
  {
    TakenGuard(p, s, until, turns[0]);
    assert turns[..j + 1][0] == turns[0] && turns[..j + 1][1..] == turns[1..][..j];
    if j + 2 <= |turns| {
      assert turns[..j + 2][0] == turns[0] && turns[..j + 2][1..] == turns[1..][..j + 1];
    }
  }

  lemma {:induction false} CleanErrorIsSeen(p: Plan, s: Exec, until: nat, turns: seq<CleanTurn>, i: nat,
                                            error: KernelError)
    requires CleanError(p, s, until, turns, i, error)
    ensures CleanLoop(p, s, until, turns).state.core.seen.observeError.Some?
    decreases |turns|
  {
    if CleanupMet(p, s, until, turns, i, error) {
      CleanLoopMeetsError(p, s, until, turns, i, error);
    } else {
      var once := CleanOnce(p, s, until, turns[0]);
      if i == 0 {
        assert turns[..0] == [];
        CleanTurnError(p, s, until, turns[0]);
        if once.Ongoing? {
          CleanLoopKeepsError(p, once.state, until, turns[1..]);
        }
      } else {
        assert turns[..i][0] == turns[0] && turns[..i][1..] == turns[1..][..i - 1];
        CleanErrorIsSeen(p, once.state, until, turns[1..], i - 1, error);
      }
    }
  }

  ghost predicate CleanupError(p: Plan, s: Exec, w: World, i: nat, error: KernelError) {
    CleanError(p, KillGroup(s, w.kill), CleanupUntil(s, w), w.clean, i, error)
  }

  lemma CleanupErrorOrigin(p: Plan, s: Exec, w: World) returns (i: nat, error: KernelError)
    requires s.core.seen.observeError.None? && Cleanup(p, s, w).state.core.seen.observeError.Some?
    ensures CleanupError(p, s, w, i, error)
    ensures Cleanup(p, s, w).state.core.seen.observeError == Some(error)
  {
    i, error := CleanErrorOrigin(p, KillGroup(s, w.kill), CleanupUntil(s, w), w.clean);
  }

  lemma CleanupErrorIsSeen(p: Plan, s: Exec, w: World, i: nat, error: KernelError)
    requires CleanupError(p, s, w, i, error)
    ensures Cleanup(p, s, w).state.core.seen.observeError.Some?
  {
    CleanErrorIsSeen(p, KillGroup(s, w.kill), CleanupUntil(s, w), w.clean, i, error);
  }

  ghost predicate AnyError(c: Command, w: World, error: KernelError)
    requires Refusal(c, w.launch).None?
  {
    var p, o := PlanOf(c, w.launch), FirstState(c, w.launch);
    exists i :: MainError(p, o, w.main, i, error) || CleanupError(p, MainLoop(p, o, w.main).state, w, i, error)
  }

  /** A recorded error was answered by the kernel in this run. */
  lemma RecordedErrorWasMet(c: Command, w: World) returns (error: KernelError)
    requires Run(c, w).Finished? && Run(c, w).last.core.seen.observeError.Some?
    ensures Refusal(c, w.launch).None? && AnyError(c, w, error)
    ensures Run(c, w).last.core.seen.observeError == Some(error)
  {
    RunAs(c, w);
    var p, o := PlanOf(c, w.launch), FirstState(c, w.launch);
    var s := MainLoop(p, o, w.main).state;
    var i;
    if s.core.seen.observeError.Some? {
      i, error := MainErrorOrigin(p, o, w.main);
      CleanupKeepsError(p, s, w);
      assert MainError(p, o, w.main, i, error);
    } else {
      i, error := CleanupErrorOrigin(p, s, w);
      assert CleanupError(p, s, w, i, error);
    }
  }

  lemma MetErrorIsRecorded(c: Command, w: World, error: KernelError)
    requires Run(c, w).Finished? && Refusal(c, w.launch).None? && AnyError(c, w, error)
    ensures Run(c, w).last.core.seen.observeError.Some?
  {
    RunAs(c, w);
    var p, o := PlanOf(c, w.launch), FirstState(c, w.launch);
    var s := MainLoop(p, o, w.main).state;
    var i :| MainError(p, o, w.main, i, error) || CleanupError(p, s, w, i, error);
    if MainError(p, o, w.main, i, error) {
      FirstErrorIsKept(c, w, i, error);
    } else {
      CleanupErrorIsSeen(p, s, w, i, error);
    }
  }

  /**
   * Errors are exact: a finished run records one iff the kernel answered some question of it with one,
   * an interrupted call never counts, and the recorded error is one of those answers.
   */
  lemma ErrorsAreExact(c: Command, w: World)
    requires Run(c, w).Finished?
    ensures Refusal(c, w.launch).None?
    ensures var recorded := Run(c, w).core.seen.observeError;
      && (recorded.Some? <==> exists error :: AnyError(c, w, error))
      && (recorded.Some? ==> AnyError(c, w, recorded.value))
  {
    LastObservationsAreFinal(c, w);
    if Run(c, w).last.core.seen.observeError.Some? {
      var error := RecordedErrorWasMet(c, w);
      assert AnyError(c, w, error);
    }
    if error: KernelError :| AnyError(c, w, error) {
      MetErrorIsRecorded(c, w, error);
    }
  }

  // ---------------------------------------------------------------------------------------------
  // The leader.

  /** The turn in which a cleanup that holds the child waits for it. */
  ghost predicate Reaps(s: Exec, t: CleanTurn) {
    && s.core.owned.child
    && (s.core.seen.leaderWaitable || (s.core.seen.observeError.None? && t.leader.Waitable?))
  }

  /** Exactly when one cleanup turn reaps, and what it makes of the answer. */
  lemma CleanTurnReaps(p: Plan, s: Exec, until: nat, t: CleanTurn)
    ensures var once := CleanOnce(p, s, until, t); var k := once.state.core;
      var reaps := s.now + t.beforeGuard < until && Reaps(s, t);
      && (reaps && t.wait.Exited? ==> k.status == Some(t.wait.status) && !k.owned.child)
      && (reaps && t.wait.WaitFailed? ==>
            && once.Left? && k.status == s.core.status && k.owned.child
            && k.seen.reapFailures == s.core.seen.reapFailures + [ReapFailure(t.wait.error)])
      && (!reaps ==>
            && k.status == s.core.status && k.owned.child == s.core.owned.child
            && k.seen.reapFailures == s.core.seen.reapFailures)
  {
    var phase := ReapPhase(p, s, until, t);
    var k := phase.state.core;
    var reaps := s.now + t.beforeGuard < until && Reaps(s, t);
    assert reaps && t.wait.Exited? ==> k.status == Some(t.wait.status) && !k.owned.child;
    assert !reaps ==> k.status == s.core.status && k.owned.child == s.core.owned.child;
  }

  ghost predicate ReapTurn(p: Plan, s: Exec, until: nat, turns: seq<CleanTurn>, i: nat) {
    && i < |turns| && i < CleanTurns(p, s, until, turns)
    && Reaps(CleanLoop(p, s, until, turns[..i]).state, turns[i])
  }

  lemma {:induction false} StatusStays(p: Plan, s: Exec, until: nat, turns: seq<CleanTurn>)
    requires !s.core.owned.child
    ensures CleanLoop(p, s, until, turns).state.core.status == s.core.status
    decreases |turns|
  {
    if turns != [] {
      CleanTurnReaps(p, s, until, turns[0]);
      StatusStays(p, CleanOnce(p, s, until, turns[0]).state, until, turns[1..]);
    }
  }

  lemma {:induction false} ReapTurnSets(p: Plan, s: Exec, until: nat, turns: seq<CleanTurn>, i: nat)
    requires ReapTurn(p, s, until, turns, i)
    ensures turns[i].wait.Exited? ==>
              CleanLoop(p, s, until, turns).state.core.status == Some(turns[i].wait.status)
    decreases |turns|
  {
    var once := CleanOnce(p, s, until, turns[0]);
    CleanTurnReaps(p, s, until, turns[0]);
    if i == 0 {
      assert turns[..0] == [];
      if once.Ongoing? {
        StatusStays(p, once.state, until, turns[1..]);
      }
    } else {
      assert turns[..i][0] == turns[0] && turns[..i][1..] == turns[1..][..i - 1];
      ReapTurnSets(p, once.state, until, turns[1..], i - 1);
    }
  }

  lemma {:induction false} StatusOrigin(p: Plan, s: Exec, until: nat, turns: seq<CleanTurn>) returns (i: nat)
    requires s.core.status.None? && CleanLoop(p, s, until, turns).state.core.status.Some?
    ensures ReapTurn(p, s, until, turns, i) && turns[i].wait.Exited?
    decreases |turns|
  {
    i := 0;
    var once := CleanOnce(p, s, until, turns[0]);
    CleanTurnReaps(p, s, until, turns[0]);
    if once.state.core.status.Some? {
      assert turns[..0] == [];
    } else {
      TakenGuard(p, s, until, turns[0]);
      var j := StatusOrigin(p, once.state, until, turns[1..]);
      i := j + 1;
      assert turns[..i][0] == turns[0] && turns[..i][1..] == turns[1..][..j];
    }
  }

  ghost predicate CleanupReaps(p: Plan, s: Exec, w: World, i: nat) {
    ReapTurn(p, KillGroup(s, w.kill), CleanupUntil(s, w), w.clean, i)
  }

  lemma CleanupStatus(p: Plan, s: Exec, w: World, i: nat)
    requires s.core.status.None?
    ensures CleanupReaps(p, s, w, i) && w.clean[i].wait.Exited? ==>
              Cleanup(p, s, w).state.core.status == Some(w.clean[i].wait.status)
  {
    if CleanupReaps(p, s, w, i) {
      ReapTurnSets(p, KillGroup(s, w.kill), CleanupUntil(s, w), w.clean, i);
    }
  }

  lemma CleanupStatusOrigin(p: Plan, s: Exec, w: World) returns (i: nat)
    requires s.core.status.None? && Cleanup(p, s, w).state.core.status.Some?
    ensures CleanupReaps(p, s, w, i) && w.clean[i].wait.Exited?
  {
    i := StatusOrigin(p, KillGroup(s, w.kill), CleanupUntil(s, w), w.clean);
  }

  lemma SupervisionHasNoStatus(c: Command, w: World)
    requires Run(c, w).Finished?
    ensures Refusal(c, w.launch).None?
    ensures MainLoop(PlanOf(c, w.launch), FirstState(c, w.launch), w.main).state.core.status.None?
    ensures Run(c, w).evidence.leaderStatus
         == Cleanup(PlanOf(c, w.launch), MainLoop(PlanOf(c, w.launch), FirstState(c, w.launch), w.main).state, w)
              .state.core.status
  {
    RunAs(c, w);
    FinishedAs(c, w);
    NoStatusYet(PlanOf(c, w.launch), FirstState(c, w.launch), w.main);
  }

  lemma {:induction false} NoStatusYet(p: Plan, s: Exec, turns: seq<MainTurn>)
    ensures MainLoop(p, s, turns).state.core.status == s.core.status
    decreases |turns|
  {
    if turns != [] {
      NoStatusYet(p, MainOnce(p, s, turns[0]).state, turns[1..]);
    }
  }

  /** The reported status is the answer of the one wait the run made, and there is one iff it made it. */
  lemma StatusIsExact(c: Command, w: World, status: ExitStatus)
    requires Run(c, w).Finished?
    ensures Refusal(c, w.launch).None?
    ensures Run(c, w).evidence.leaderStatus == Some(status) <==>
              var p, o := PlanOf(c, w.launch), FirstState(c, w.launch);
              exists i: nat :: CleanupReaps(p, MainLoop(p, o, w.main).state, w, i)
                          && w.clean[i].wait == WaitReply.Exited(status)
  {
    SupervisionHasNoStatus(c, w);
    var p, o := PlanOf(c, w.launch), FirstState(c, w.launch);
    var s := MainLoop(p, o, w.main).state;
    if Run(c, w).evidence.leaderStatus == Some(status) {
      var i := CleanupStatusOrigin(p, s, w);
      CleanupStatus(p, s, w, i);
      assert CleanupReaps(p, s, w, i) && w.clean[i].wait == WaitReply.Exited(status);
    }
    if i: nat :| CleanupReaps(p, s, w, i) && w.clean[i].wait == WaitReply.Exited(status) {
      CleanupStatus(p, s, w, i);
    }
  }

  ghost predicate MainWaitable(p: Plan, s: Exec, turns: seq<MainTurn>, i: nat) {
    && i < |turns| && i < MainTurns(p, s, turns)
    && MainLoop(p, s, turns[..i]).state.core.seen.observeError.None? && turns[i].leader.Waitable?
  }

  lemma {:induction false} WaitableOrigin(p: Plan, s: Exec, turns: seq<MainTurn>) returns (i: nat)
    requires !s.core.seen.leaderWaitable && MainLoop(p, s, turns).state.core.seen.leaderWaitable
    ensures MainWaitable(p, s, turns, i)
    decreases |turns|
  {
    i := 0;
    var once := MainOnce(p, s, turns[0]);
    if once.Left? {
      assert turns[..0] == [];
    } else {
      var j := WaitableOrigin(p, once.state, turns[1..]);
      i := j + 1;
      assert turns[..i][0] == turns[0] && turns[..i][1..] == turns[1..][..j];
    }
  }

  lemma {:induction false} WaitableIsSeen(p: Plan, s: Exec, turns: seq<MainTurn>, i: nat)
    requires s.core.owned.child && MainWaitable(p, s, turns, i)
    ensures MainLoop(p, s, turns).state.core.seen.leaderWaitable
    decreases |turns|
  {
    if i > 0 {
      assert turns[..i][0] == turns[0] && turns[..i][1..] == turns[1..][..i - 1];
      WaitableIsSeen(p, MainOnce(p, s, turns[0]).state, turns[1..], i - 1);
    } else {
      assert turns[..0] == [];
    }
  }

  /** Supervision knows the leader to be waitable iff a turn that asked was told so. */
  lemma WaitabilityIsExact(c: Command, w: World)
    requires Refusal(c, w.launch).None?
    ensures var p, o := PlanOf(c, w.launch), FirstState(c, w.launch);
      MainLoop(p, o, w.main).state.core.seen.leaderWaitable <==> exists i :: MainWaitable(p, o, w.main, i)
  {
    var p, o := PlanOf(c, w.launch), FirstState(c, w.launch);
    if MainLoop(p, o, w.main).state.core.seen.leaderWaitable {
      var i := WaitableOrigin(p, o, w.main);
      assert MainWaitable(p, o, w.main, i);
    }
    if i: nat :| MainWaitable(p, o, w.main, i) {
      WaitableIsSeen(p, o, w.main, i);
    }
  }

  // ---------------------------------------------------------------------------------------------
  // Readiness.

  /** The stream a turn leaves behind, given whether its own bit of `poll` was set: eight chunks further on. */
  function Read(s: Stream, reply: PollReply, bit: bool): Stream {
    if reply.Ready? && bit && s.pipe.Some? then Pump(s, 8) else s
  }

  predicate OutBit(reply: PollReply) {
    reply.Ready? && reply.out
  }

  predicate ErrBit(reply: PollReply) {
    reply.Ready? && reply.err
  }

  /** A supervision turn that goes on reads each stream iff its own bit was set, and notes only failures. */
  lemma MainTurnReads(p: Plan, s: Exec, t: MainTurn)
    ensures var once := MainOnce(p, s, t); var sampled := Sampled(p, s, t);
      && (once.Ongoing? ==> once.state.out == Read(s.out, t.poll, OutBit(t.poll)))
      && (once.Ongoing? ==> once.state.err == Read(s.err, t.poll, ErrBit(t.poll)))
      && (once.Ongoing? && !t.poll.PollFailure? ==> once.state.core == sampled.core)
      && (once.Left? ==> once.state.out == s.out && once.state.err == s.err && once.state == sampled)
  {
  }

  lemma CleanTurnReads(p: Plan, s: Exec, until: nat, t: CleanTurn)
    ensures var once := CleanOnce(p, s, until, t); var phase := ReapPhase(p, s, until, t);
      && (once.Ongoing? ==> once.state.out == Read(s.out, t.poll, OutBit(t.poll)))
      && (once.Ongoing? ==> once.state.err == Read(s.err, t.poll, ErrBit(t.poll)))
      && (once.Ongoing? && !t.poll.PollFailure? ==> once.state.core == phase.state.core)
      && (once.Left? ==> once.state.out == s.out && once.state.err == s.err)
  {
    var phase := ReapPhase(p, s, until, t);
    assert phase.state.out == s.out && phase.state.err == s.err;
  }

  /** In how many turns that went on the bit of each stream was set. */
  function MainBits(p: Plan, s: Exec, turns: seq<MainTurn>): (nat, nat)
    decreases |turns|
  {
    if turns == [] || MainOnce(p, s, turns[0]).Left? then (0, 0)
    else
      var rest := MainBits(p, MainOnce(p, s, turns[0]).state, turns[1..]);
      ((if OutBit(turns[0].poll) then 1 else 0) + rest.0, (if ErrBit(turns[0].poll) then 1 else 0) + rest.1)
  }

  function CleanBits(p: Plan, s: Exec, until: nat, turns: seq<CleanTurn>): (nat, nat)
    decreases |turns|
  {
    if turns == [] || CleanOnce(p, s, until, turns[0]).Left? then (0, 0)
    else
      var rest := CleanBits(p, CleanOnce(p, s, until, turns[0]).state, until, turns[1..]);
      ((if OutBit(turns[0].poll) then 1 else 0) + rest.0, (if ErrBit(turns[0].poll) then 1 else 0) + rest.1)
  }

  /** Reading a stream when its bit is set is one turn of pumping it alone; a closed one stays closed. */
  lemma ReadIsAPump(s: Stream, reply: PollReply, bit: bool, n: nat)
    requires bit ==> reply.Ready?
    ensures PumpAlone(Read(s, reply, bit), n) == PumpAlone(s, (if bit then 1 else 0) + n)
  {
  }

  lemma {:induction false} MainLoopReads(p: Plan, s: Exec, turns: seq<MainTurn>)
    ensures var end := MainLoop(p, s, turns).state; var bits := MainBits(p, s, turns);
      end.out == PumpAlone(s.out, bits.0) && end.err == PumpAlone(s.err, bits.1)
    decreases |turns|
  {
    if turns != [] {
      var t := turns[0];
      var once := MainOnce(p, s, t);
      MainTurnReads(p, s, t);
      if once.Ongoing? {
        MainLoopReads(p, once.state, turns[1..]);
        var rest := MainBits(p, once.state, turns[1..]);
        ReadIsAPump(s.out, t.poll, OutBit(t.poll), rest.0);
        ReadIsAPump(s.err, t.poll, ErrBit(t.poll), rest.1);
      }
    }
  }

  lemma CleanTurnIsAPump(p: Plan, s: Exec, until: nat, t: CleanTurn, m: nat, n: nat)
    requires CleanOnce(p, s, until, t).Ongoing?
    ensures var next := CleanOnce(p, s, until, t).state;
      && PumpAlone(next.out, m) == PumpAlone(s.out, (if OutBit(t.poll) then 1 else 0) + m)
      && PumpAlone(next.err, n) == PumpAlone(s.err, (if ErrBit(t.poll) then 1 else 0) + n)
  {
    CleanTurnReads(p, s, until, t);
    ReadIsAPump(s.out, t.poll, OutBit(t.poll), m);
    ReadIsAPump(s.err, t.poll, ErrBit(t.poll), n);
  }

  lemma {:induction false} CleanLoopReads(p: Plan, s: Exec, until: nat, turns: seq<CleanTurn>)
    ensures var end := CleanLoop(p, s, until, turns).state; var bits := CleanBits(p, s, until, turns);
      end.out == PumpAlone(s.out, bits.0) && end.err == PumpAlone(s.err, bits.1)
    decreases |turns|
  {
    if turns != [] {
      var once := CleanOnce(p, s, until, turns[0]);
      if once.Ongoing? {
        CleanLoopReads(p, once.state, until, turns[1..]);
        var rest := CleanBits(p, once.state, until, turns[1..]);
        CleanTurnIsAPump(p, s, until, turns[0], rest.0, rest.1);
      } else {
        CleanTurnReads(p, s, until, turns[0]);
      }
    }
  }

  lemma CleanupReads(p: Plan, s: Exec, w: World)
    ensures var end := Cleanup(p, s, w).state; var bits := CleanupBits(p, s, w);
      end.out == PumpAlone(s.out, bits.0) && end.err == PumpAlone(s.err, bits.1)
  {
    CleanLoopReads(p, KillGroup(s, w.kill), CleanupUntil(s, w), w.clean);
  }

  function CleanupBits(p: Plan, s: Exec, w: World): (nat, nat) {
    CleanBits(p, KillGroup(s, w.kill), CleanupUntil(s, w), w.clean)
  }

  /** In how many turns of the whole run. */
  function RunBits(p: Plan, o: Exec, w: World): (nat, nat) {
    var main, clean := MainBits(p, o, w.main), CleanupBits(p, MainLoop(p, o, w.main).state, w);
    (main.0 + clean.0, main.1 + clean.1)
  }

  lemma PumpedTwice(s: Stream, mid: Stream, end: Stream, m: nat, n: nat)
    requires mid == PumpAlone(s, m) && end == PumpAlone(mid, n)
    ensures end == PumpAlone(s, m + n)
  {
    PumpAloneAdds(s, m, n);
  }

  lemma BothLoopsRead(p: Plan, o: Exec, w: World)
    ensures var end := Cleanup(p, MainLoop(p, o, w.main).state, w).state;
      end.out == PumpAlone(o.out, RunBits(p, o, w).0) && end.err == PumpAlone(o.err, RunBits(p, o, w).1)
  {
    var s := MainLoop(p, o, w.main).state;
    var end := Cleanup(p, s, w).state;
    var main, clean := MainBits(p, o, w.main), CleanupBits(p, s, w);
    MainLoopReads(p, o, w.main);
    CleanupReads(p, s, w);
    PumpedTwice(o.out, s.out, end.out, main.0, clean.0);
    PumpedTwice(o.err, s.err, end.err, main.1, clean.1);
  }

  /**
   * Over a whole run each stream is read exactly in the turns in which `poll` reported that very
   * stream, eight chunks at a time, as if it were alone.
   */
  lemma RunsReadWhatIsReady(c: Command, w: World)
    requires Run(c, w).Finished?
    ensures Refusal(c, w.launch).None?
    ensures var p, o := PlanOf(c, w.launch), FirstState(c, w.launch);
      && Run(c, w).last.out == PumpAlone(o.out, RunBits(p, o, w).0)
      && Run(c, w).last.err == PumpAlone(o.err, RunBits(p, o, w).1)
  {
    RunAs(c, w);
    BothLoopsRead(PlanOf(c, w.launch), FirstState(c, w.launch), w);
  }

  // ---------------------------------------------------------------------------------------------
  // Waits.

  /** The two seconds of cleanup start before the group signal; a clock that cannot hold them leaves none. */
  lemma BudgetStartsBeforeTheKill(s: Exec, w: World)
    ensures var before := s.now + w.kill.beforeSample;
      CleanupUntil(s, w) == before + (if before + CLEANUP_BUDGET <= w.launch.lastInstant then 2_000_000_000 else 0)
  {
  }

  /** A cleanup turn that is reached is taken iff the clock has not yet come to the end of the budget. */
  lemma {:induction false} GuardIsExact(p: Plan, s: Exec, until: nat, turns: seq<CleanTurn>, i: nat)
    requires i < |turns| && CleanLoop(p, s, until, turns[..i]).Ongoing?
    ensures i < CleanTurns(p, s, until, turns) <==>
              CleanLoop(p, s, until, turns[..i]).state.now + turns[i].beforeGuard < until
    decreases |turns|
  {
    if i == 0 {
      assert turns[..0] == [];
    } else {
      var once := CleanOnce(p, s, until, turns[0]);
      assert turns[..i][0] == turns[0] && turns[..i][1..] == turns[1..][..i - 1];
      TakenGuard(p, s, until, turns[0]);
      GuardIsExact(p, once.state, until, turns[1..], i - 1);
    }
  }

  /** A wait is the longest that oversteps neither one quantum nor either deadline. */
  lemma WaitsAreTheLongestAllowed(deadline: Option<nat>, cleanup: Option<nat>, now: nat, wait: nat)
    ensures wait <= WaitQuantum(deadline, cleanup, now) <==>
              && wait <= 10_000_000
              && (deadline.Some? ==> wait == 0 || now + wait <= deadline.value)
              && (cleanup.Some? ==> wait == 0 || now + wait <= cleanup.value)
  {
  }

  // ---------------------------------------------------------------------------------------------
  // The signal, the streams' ends, and the verdict.

  lemma SignalOfRun(c: Command, w: World)
    requires Run(c, w).Finished?
    ensures Tells(Run(c, w).evidence.signal, w.kill.reply)
  {
    RunAs(c, w);
    FinishedAs(c, w);
    SignalOfCleanup(PlanOf(c, w.launch), MainLoop(PlanOf(c, w.launch), FirstState(c, w.launch), w.main).state, w);
  }

  lemma SignalOfCleanup(p: Plan, s: Exec, w: World)
    ensures Cleanup(p, s, w).state.core.signal.Some?
    ensures Tells(Cleanup(p, s, w).state.core.signal.value, w.kill.reply)
  {
    CleanLoopForward(p, KillGroup(s, w.kill), CleanupUntil(s, w), w.clean);
  }

  /** The reported signal says what `kill` answered: delivered, no such group, or its error. */
  lemma SignalIsExact(c: Command, w: World)
    requires Run(c, w).Finished?
    ensures var h := HistoryOf(Run(c, w)); var signal := Run(c, w).evidence.signal;
      && Tells(signal, w.kill.reply)
      && FirstKill(h).Some? && Tells(signal, FirstKill(h).value)
  {
    SignalOfRun(c, w);
    EvidenceIsTruthful(c, w);
    FirstSignalTells(HistoryOf(Run(c, w)));
  }

  /** How the report of a stream ends, given how the pipe was set up and what was read of it. */
  ghost predicate EndsHonestly(setup: PipeSetup, s: Stream, r: CaptureReport) {
    && r.failure == s.failure
    && (setup.pipe.None? ==> r.failure.None? && !s.eof)
    && (setup.pipe.Some? && setup.setNonblocking.Some? ==>
          r.failure == Some(ReadFailure(setup.setNonblocking.value)) && s.consumed == [])
    && (setup.pipe.Some? && setup.setNonblocking.None? ==> EndsAsRead(s))
  }

  lemma StreamEndsHonestly(name: StreamName, setup: PipeSetup, policy: CapturePolicy, s: Stream)
    requires var o := OpenStream(name, setup, policy); Faithful(s) && SameShape(o, s) && Replayed(o, s)
    ensures EndsHonestly(setup, s, Report(s))
  {
    var o := OpenStream(name, setup, policy);
    if setup.pipe.Some? && setup.setNonblocking.None? {
      StreamsEndAsRead(o, s);
    } else {
      assert s.consumed == [];
      assert Forget(s) == Forget(o);
      assert s.eof == Forget(s).eof && s.failure == Forget(s).failure;
    }
  }

  /** Capture failures carry the kernel's own error, and lose nothing that had been kept before them. */
  lemma CapturesEndHonestly(c: Command, w: World)
    requires Run(c, w).Finished?
    ensures var end := Run(c, w);
      && EndsHonestly(w.launch.stdout, end.last.out, end.evidence.stdout)
      && EndsHonestly(w.launch.stderr, end.last.err, end.evidence.stderr)
  {
    FinishedAs(c, w);
    FinishedStreams(c, w);
    StreamEndsHonestly(Stdout, w.launch.stdout, c.stdoutCapture, Run(c, w).last.out);
    StreamEndsHonestly(Stderr, w.launch.stderr, c.stderrCapture, Run(c, w).last.err);
  }

  /** The result of every verdict, and of every way an exit can turn out. */
  lemma VerdictsAreExact(c: Command, w: World)
    requires Run(c, w).Finished?
    ensures var end := Run(c, w); var r := end.result; var e := end.evidence; var v := Winner(end);
      && (v.Limit? ==> r == Err(CaptureLimitExceeded(v.stream, v.limit, e)))
      && (v.CancelledFirst? ==> r == Err(Cancelled(e)))
      && (v.DeadlineFirst? ==> c.execution.Deadline? && r == Err(Timeout(c.execution.after, e)))
      && (v.CaptureFailure? ==> r == Err(CaptureFailed(e)))
      && (v.Supervision? ==> r == Err(SupervisionFailed(v.error, e)))
      && (v.Exit? && !e.cleanup.CleanupComplete? ==> r == Err(CleanupIncomplete(e)))
      && (v.Exit? && e.cleanup.CleanupComplete? && w.kill.reply.KillFailed? ==> r == Err(LifecycleFailed(e)))
      && (v.Exit? && e.cleanup.CleanupComplete? && !w.kill.reply.KillFailed? ==>
            && e.leaderStatus.Some?
            && r == if e.leaderStatus.value.raw == 0 then Ok(Output(e.leaderStatus.value, e)) else Err(NonZeroExit(e)))
  {
    FinishedAs(c, w);
    FinishedCore(c, w);
    SignalOfRun(c, w);
  }
}
