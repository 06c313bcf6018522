/** When supervision stops, and what becomes of the errors a captured run meets. */
module ExecutorCauses {
  import opened Base
  import opened Outcome
  import opened Policy
  import opened Lifecycle
  import opened Executor
  import opened ExecutorTheorems

  // ---------------------------------------------------------------------------------------------
  // The turn that ends supervision.

  /** Turn `t` of a supervision at `s` meets nothing to settle for. */
  ghost predicate Uneventful(p: Plan, s: Exec, t: MainTurn) {
    && s.out.overflow.None? && s.err.overflow.None?
    && s.out.failure.None? && s.err.failure.None?
    && s.core.seen.observeError.None? && !s.core.seen.leaderWaitable && !s.core.seen.cancelled
    && (t.leader.StillRunning? || t.leader.ObserveInterrupted?)
    && !t.cancelled
    && (p.deadline.Some? ==> s.now + t.beforeSample < p.deadline.value)
  }

  lemma TurnEndsAtACause(p: Plan, s: Exec, t: MainTurn)
    requires s.core.owned.child
    ensures MainOnce(p, s, t).Ongoing? <==> Uneventful(p, s, t)
  {
  }

  lemma {:induction false} MainLoopSplits(p: Plan, s: Exec, turns: seq<MainTurn>, i: nat)
    requires i <= |turns|
    ensures var head := MainLoop(p, s, turns[..i]);
      MainLoop(p, s, turns) == if head.Left? then head else MainLoop(p, head.state, turns[i..])
    decreases |turns|
  {
    if i > 0 {
      var once := MainOnce(p, s, turns[0]);
      assert turns[..i][0] == turns[0] && turns[..i][1..] == turns[1..][..i - 1];
      if once.Ongoing? {
        MainLoopSplits(p, once.state, turns[1..], i - 1);
        assert turns[1..][i - 1..] == turns[i..];
      }
    }
  }

  lemma MainLoopOneMore(p: Plan, s: Exec, turns: seq<MainTurn>, i: nat)
    requires i < |turns| && MainLoop(p, s, turns[..i]).Ongoing?
    ensures MainLoop(p, s, turns[..i + 1]) == MainOnce(p, MainLoop(p, s, turns[..i]).state, turns[i])
  {
    var upto := turns[..i + 1];
    MainLoopSplits(p, s, upto, i);
    assert upto[..i] == turns[..i] && upto[i..] == [turns[i]];
    assert MainLoop(p, MainLoop(p, s, turns[..i]).state, [turns[i]])
        == MainOnce(p, MainLoop(p, s, turns[..i]).state, turns[i]);
  }

  /** Supervision ends in the first turn that meets an overflow, a failure, a request, the deadline or the leader. */
  lemma SupervisionEndsAtTheFirstCause(c: Command, w: World, i: nat)
    requires Refusal(c, w.launch).None? && i < |w.main|
    requires MainLoop(PlanOf(c, w.launch), FirstState(c, w.launch), w.main[..i]).Ongoing?
    ensures var p := PlanOf(c, w.launch); var o := FirstState(c, w.launch);
      var before, after := MainLoop(p, o, w.main[..i]), MainLoop(p, o, w.main[..i + 1]);
      && (after.Ongoing? <==> Uneventful(p, before.state, w.main[i]))
      && (after.Left? ==> MainLoop(p, o, w.main) == after)
  {
    var p, o := PlanOf(c, w.launch), FirstState(c, w.launch);
    FirstStateSound(c, w.launch);
    MainLoopKeeps(o, p, o, w.main[..i]);
    MainLoopOneMore(p, o, w.main, i);
    MainLoopSplits(p, o, w.main, i + 1);
    TurnEndsAtACause(p, MainLoop(p, o, w.main[..i]).state, w.main[i]);
  }

  // ---------------------------------------------------------------------------------------------
  // Errors.

  lemma {:induction false} MainStaysBlind(p: Plan, s: Exec, turns: seq<MainTurn>)
    requires Blind(s.core)
    ensures Blind(MainLoop(p, s, turns).state.core)
    ensures MainLoop(p, s, turns).state.core.seen.observeError == s.core.seen.observeError
    decreases |turns|
  {
    if turns != [] {
      MainStaysBlind(p, MainOnce(p, s, turns[0]).state, turns[1..]);
    }
  }

  lemma {:induction false} NotYetWaitable(p: Plan, s: Exec, turns: seq<MainTurn>)
    requires !s.core.seen.leaderWaitable && MainLoop(p, s, turns).Ongoing?
    ensures !MainLoop(p, s, turns).state.core.seen.leaderWaitable
    decreases |turns|
  {
    if turns != [] {
      NotYetWaitable(p, MainOnce(p, s, turns[0]).state, turns[1..]);
    }
  }

  lemma {:induction false} CleanLoopKeepsError(p: Plan, s: Exec, until: nat, turns: seq<CleanTurn>)
    requires s.core.seen.observeError.Some?
    ensures CleanLoop(p, s, until, turns).state.core.seen.observeError == s.core.seen.observeError
    decreases |turns|
  {
    if turns != [] {
      CleanLoopKeepsError(p, CleanOnce(p, s, until, turns[0]).state, until, turns[1..]);
    }
  }

  lemma CleanupKeepsError(p: Plan, s: Exec, w: World)
    requires s.core.seen.observeError.Some?
    ensures Cleanup(p, s, w).state.core.seen.observeError == s.core.seen.observeError
  {
    CleanLoopKeepsError(p, KillGroup(s, w.kill), CleanupUntil(s, w),
                        w.clean);
  }

  /** An observation error is never followed by `Ok`: it is the reported source unless something outranks it. */
  lemma ErrorsAreReported(c: Command, w: World)
    requires Run(c, w).Finished? && Run(c, w).last.core.seen.observeError.Some?
    ensures var r := Run(c, w).result;
      && r.Err?
      && (r.error.SupervisionFailed? ==> Some(r.error.source) == Run(c, w).last.core.seen.observeError)
      && (r.error.SupervisionFailed? || r.error.CaptureLimitExceeded? || r.error.Cancelled? || r.error.Timeout? ||
          r.error.CaptureFailed?)
  {
    FinishedAs(c, w);
    FinishedCore(c, w);
  }

  /** Turn `i` is given `error` by `waitid`, or by a `poll` that had something to poll. */
  ghost predicate MeetsError(s: Exec, after: LoopEnd, t: MainTurn, error: KernelError) {
    || t.leader == ObserveFailed(error)
    || (after.Ongoing? && t.poll == PollFailure(error) && (s.out.pipe.Some? || s.err.pipe.Some?))
  }

  lemma MetErrorBlinds(p: Plan, s: Exec, t: MainTurn, error: KernelError)
    requires s.core.owned.child && !s.core.seen.leaderWaitable && MeetsError(s, MainOnce(p, s, t), t, error)
    ensures Blind(MainOnce(p, s, t).state.core)
    ensures MainOnce(p, s, t).state.core.seen.observeError == KeepFirst(s.core.seen.observeError, error)
  {
  }

  /**
   * The first error of a supervision is the one that is kept, whatever follows; the leader is then
   * never reaped by the supervisor but offered to the background reaper, and the run fails.
   */
  lemma FirstErrorIsKept(c: Command, w: World, i: nat, error: KernelError)
    requires Run(c, w).Finished? && i < |w.main|
    requires var p := PlanOf(c, w.launch); var o := FirstState(c, w.launch);
      && MainLoop(p, o, w.main[..i]).Ongoing?
      && MeetsError(MainLoop(p, o, w.main[..i]).state, MainLoop(p, o, w.main[..i + 1]), w.main[i], error)
    ensures var before := MainLoop(PlanOf(c, w.launch), FirstState(c, w.launch), w.main[..i]).state;
      var e := Run(c, w).evidence;
      && Run(c, w).last.core.seen.observeError == KeepFirst(before.core.seen.observeError, error)
      && e.reap.disposition == (if w.farewell.reaperAlive then BackgroundReaper else Unreaped)
      && e.leaderStatus.None? && Run(c, w).result.Err?
  {
    var p, o := PlanOf(c, w.launch), FirstState(c, w.launch);
    RunAs(c, w);
    FirstStateSound(c, w.launch);
    MainLoopKeeps(o, p, o, w.main[..i]);
    NotYetWaitable(p, o, w.main[..i]);
    MainLoopOneMore(p, o, w.main, i);
    var after := MainLoop(p, o, w.main[..i + 1]);
    MetErrorBlinds(p, MainLoop(p, o, w.main[..i]).state, w.main[i], error);
    MainLoopSplits(p, o, w.main, i + 1);
    if after.Ongoing? {
      MainStaysBlind(p, after.state, w.main[i + 1..]);
    }
    CleanupKeepsError(p, MainLoop(p, o, w.main).state, w);
    BlindSupervisionIsHandedOff(c, w);
  }

  /** Cleanup turn `i` polls an open pipe, and `poll` answers it with `error`. */
  ghost predicate CleanupMet(p: Plan, s: Exec, until: nat, turns: seq<CleanTurn>, i: nat, error: KernelError) {
    && i < |turns| && turns[i].poll == PollFailure(error)
    && CleanLoop(p, s, until, turns[..i + 1]).Ongoing?
    && var before := CleanLoop(p, s, until, turns[..i]).state;
       before.out.pipe.Some? || before.err.pipe.Some?
  }

  lemma {:induction false} CleanLoopMeetsError(p: Plan, s: Exec, until: nat, turns: seq<CleanTurn>, i: nat,
                                               error: KernelError)
    requires CleanupMet(p, s, until, turns, i, error)
    ensures CleanLoop(p, s, until, turns).state.core.seen.observeError.Some?
    decreases |turns|
  {
    var once := CleanOnce(p, s, until, turns[0]);
    assert turns[..i + 1][0] == turns[0] && turns[..i + 1][1..] == turns[1..][..i];
    if i == 0 {
      assert once.Ongoing?;
      CleanLoopKeepsError(p, once.state, until, turns[1..]);
    } else {
      assert turns[..i][0] == turns[0] && turns[..i][1..] == turns[1..][..i - 1];
      CleanLoopMeetsError(p, once.state, until, turns[1..], i - 1, error);
    }
  }

  lemma CleanupMeetsError(p: Plan, s: Exec, w: World, i: nat, error: KernelError)
    requires var k := KillGroup(s, w.kill);
      CleanupMet(p, k, CleanupUntil(s, w), w.clean, i, error)
    ensures Cleanup(p, s, w).state.core.seen.observeError.Some?
  {
    var until := CleanupUntil(s, w);
    CleanLoopMeetsError(p, KillGroup(s, w.kill), until, w.clean, i, error);
  }

  /** A `poll` error during cleanup, too, excludes `Ok`, even when everything then settles. */
  lemma CleanupErrorIsReported(c: Command, w: World, i: nat, error: KernelError)
    requires Run(c, w).Finished?
    requires var p := PlanOf(c, w.launch); var s := MainLoop(p, FirstState(c, w.launch), w.main).state;
      var until := CleanupUntil(s, w);
      CleanupMet(p, KillGroup(s, w.kill), until, w.clean, i, error)
    ensures Run(c, w).result.Err? && !Run(c, w).result.error.NonZeroExit?
  {
    var p := PlanOf(c, w.launch);
    CleanupMeetsError(p, MainLoop(p, FirstState(c, w.launch), w.main).state, w, i, error);
    RunAs(c, w);
    ErrorsAreReported(c, w);
  }

  // ---------------------------------------------------------------------------------------------
  // Deadlines.

  ghost predicate Late(p: Plan, s: Exec) {
    s.core.seen.deadlineElapsed && DeadlinePassed(p.deadline, s.now)
  }

  /** The instant at which a cleanup turn that passes its guard samples the deadline. */
  function SampledAt(s: Exec, t: CleanTurn): nat {
    s.now + t.beforeGuard + t.beforeSample
  }

  lemma CleanOnceLateness(p: Plan, s: Exec, until: nat, t: CleanTurn)
    ensures Late(p, s) ==> Late(p, CleanOnce(p, s, until, t).state)
    ensures s.now + t.beforeGuard < until && DeadlinePassed(p.deadline, SampledAt(s, t)) ==>
              Late(p, CleanOnce(p, s, until, t).state)
  {
    var phase := ReapPhase(p, s, until, t);
    assert Late(p, s) ==> Late(p, phase.state);
    assert s.now + t.beforeGuard < until && DeadlinePassed(p.deadline, SampledAt(s, t)) ==> Late(p, phase.state);
  }

  lemma {:induction false} LatenessSticks(p: Plan, s: Exec, until: nat, turns: seq<CleanTurn>, i: nat)
    ensures Late(p, s) ==> Late(p, CleanLoop(p, s, until, turns).state)
    ensures i < |turns| && i < CleanTurns(p, s, until, turns)
            && DeadlinePassed(p.deadline, SampledAt(CleanLoop(p, s, until, turns[..i]).state, turns[i])) ==>
              Late(p, CleanLoop(p, s, until, turns).state)
    decreases |turns|
  {
    if turns != [] {
      CleanOnceLateness(p, s, until, turns[0]);
      var once := CleanOnce(p, s, until, turns[0]);
      if once.Ongoing? {
        LatenessSticks(p, once.state, until, turns[1..], if i == 0 then 0 else i - 1);
        if 0 < i < |turns| {
          assert turns[..i][0] == turns[0] && turns[..i][1..] == turns[1..][..i - 1];
        }
      }
    }
  }

  /** Once any sample saw the deadline, the run ends in a capture limit, `Cancelled` or `Timeout`. */
  lemma DeadlineIsHonoured(c: Command, w: World)
    requires Run(c, w).Finished? && Has(HistoryOf(Run(c, w)), DeadlineSeen)
    ensures var r := Run(c, w).result;
      r.Err? && (r.error.CaptureLimitExceeded? || r.error.Cancelled? || r.error.Timeout?)
  {
    FinishedAs(c, w);
    FinishedCore(c, w);
    UnseenCauses(c, w);
  }

  lemma LateCleanup(p: Plan, s: Exec, w: World, i: nat)
    requires var until := CleanupUntil(s, w);
      TakenLate(p, KillGroup(s, w.kill), until, w.clean, i)
    ensures Late(p, Cleanup(p, s, w).state)
  {
    LatenessSticks(p, KillGroup(s, w.kill), CleanupUntil(s, w), w.clean, i);
  }

  /** Cleanup turn `i` is taken, and its sample comes at the deadline or later. */
  ghost predicate TakenLate(p: Plan, s: Exec, until: nat, turns: seq<CleanTurn>, i: nat) {
    && i < |turns| && i < CleanTurns(p, s, until, turns)
    && DeadlinePassed(p.deadline, SampledAt(CleanLoop(p, s, until, turns[..i]).state, turns[i]))
  }

  /**
   * The deadline is sampled again in every cleanup turn: a cleanup that runs past it ends the run in a
   * limit, `Cancelled` or `Timeout`, even after the leader had exited in time.
   */
  lemma LateCleanupTimesOut(c: Command, w: World, i: nat)
    requires Run(c, w).Finished?
    requires var p := PlanOf(c, w.launch); var s := MainLoop(p, FirstState(c, w.launch), w.main).state;
      var until := CleanupUntil(s, w);
      TakenLate(p, KillGroup(s, w.kill), until, w.clean, i)
    ensures var r := Run(c, w).result;
      r.Err? && (r.error.CaptureLimitExceeded? || r.error.Cancelled? || r.error.Timeout?)
  {
    var p := PlanOf(c, w.launch);
    LateCleanup(p, MainLoop(p, FirstState(c, w.launch), w.main).state, w, i);
    RunAs(c, w);
    SeenDeadlineDecides(c, w);
  }

  lemma SeenDeadlineDecides(c: Command, w: World)
    requires Run(c, w).Finished? && Run(c, w).last.core.seen.deadlineElapsed
    ensures var r := Run(c, w).result;
      r.Err? && (r.error.CaptureLimitExceeded? || r.error.Cancelled? || r.error.Timeout?)
  {
    FinishedAs(c, w);
    UnseenCauses(c, w);
    DeadlineIsHonoured(c, w);
  }

  /**
   * Every instant a run waits for is one the clock can represent: a deadline it could not is refused
   * before a process exists, and a cleanup budget it could not is no budget at all.
   */
  lemma DeadlinesAreRepresentable(c: Command, w: World)
    ensures Run(c, w) == Refused(DeadlineOverflow(if c.execution.Deadline? then c.execution.after else 0)) <==>
              && w.launch.reaper.None? && c.execution.Deadline?
              && w.launch.started + c.execution.after > w.launch.lastInstant
    ensures Refusal(c, w.launch).None? && PlanOf(c, w.launch).deadline.Some? ==>
              w.launch.started <= PlanOf(c, w.launch).deadline.value <= w.launch.lastInstant
    ensures !Run(c, w).Refused? <==> Refusal(c, w.launch).None?
    ensures forall now: nat :: now <= w.launch.lastInstant ==>
              now <= CleanupDeadline(now, w.launch.lastInstant) <= Min(w.launch.lastInstant, now + CLEANUP_BUDGET)
  {
  }
}
