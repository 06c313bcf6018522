/** Time: honest and bounded timeouts, terminating loops, and cleanup that makes progress. */
module ExecutorTime {
  import opened Base
  import opened Outcome
  import opened Policy
  import opened Capture
  import opened Lifecycle
  import opened Classification
  import opened Executor
  import opened ExecutorTheorems
  import opened ExecutorCauses

  // ---------------------------------------------------------------------------------------------
  // Timeouts.

  /** A reported timeout really lasted as long as the configured deadline, and a sample saw it pass. */
  lemma TimeoutIsHonest(c: Command, w: World)
    requires Run(c, w).Finished?
    requires Run(c, w).result.Err? && Run(c, w).result.error.Timeout?
    ensures var error := Run(c, w).result.error;
      && c.execution == Deadline(error.deadline)
      && error.evidence == Run(c, w).evidence
      && error.evidence.elapsed.Some? && error.evidence.elapsed.value >= error.deadline
      && Has(HistoryOf(Run(c, w)), DeadlineSeen) && !Has(HistoryOf(Run(c, w)), CancelSeen)
  {
    FinishedAs(c, w);
    FinishedCore(c, w);
    UnseenCauses(c, w);
    var end := Run(c, w);
    TimeoutAsks(end.core.seen, end.last.out.overflow, end.last.err.overflow, c.execution.Duration(), end.evidence);
  }

  function MainWork(t: MainTurn): nat {
    t.beforeSample + t.beforeWait + t.work
  }

  function CleanWork(t: CleanTurn): nat {
    t.beforeGuard + t.beforeSample + t.beforeWait + t.work
  }

  /** Outside the waits it asked for, no stretch of the run takes longer than `delta`. */
  ghost predicate Brisk(w: World, delta: nat) {
    && w.launch.work <= delta
    && (forall i :: 0 <= i < |w.main| ==> MainWork(w.main[i]) <= delta)
    && w.kill.beforeSample + w.kill.work <= delta
    && (forall i :: 0 <= i < |w.clean| ==> CleanWork(w.clean[i]) <= delta)
    && w.farewell.work <= delta
  }

  lemma {:induction false} MainLoopTimely(p: Plan, s: Exec, turns: seq<MainTurn>, delta: nat)
    requires p.deadline.Some? && s.now <= p.deadline.value + delta
    requires forall i :: 0 <= i < |turns| ==> MainWork(turns[i]) <= delta
    ensures MainLoop(p, s, turns).state.now <= p.deadline.value + 2 * delta
    decreases |turns|
  {
    if turns != [] {
      assert MainWork(turns[0]) <= delta;
      MainOnceTimely(p, s, turns[0], delta);
      if MainOnce(p, s, turns[0]).Ongoing? {
        MainLoopTimely(p, MainOnce(p, s, turns[0]).state, turns[1..], delta);
      }
    }
  }

  lemma MainOnceTimely(p: Plan, s: Exec, t: MainTurn, delta: nat)
    requires p.deadline.Some? && s.now <= p.deadline.value + delta && MainWork(t) <= delta
    ensures MainOnce(p, s, t).Left? ==> MainOnce(p, s, t).state.now <= p.deadline.value + 2 * delta
    ensures MainOnce(p, s, t).Ongoing? ==> MainOnce(p, s, t).state.now <= p.deadline.value + delta
  {
    assert Awaited(p, Sampled(p, s, t), t).now
        == s.now + MainWork(t) + Min(t.slept, WaitQuantum(p.deadline, None, s.now + t.beforeSample + t.beforeWait));
  }

  /** No turn of either loop sleeps longer than one event quantum, so requests are sampled that often. */
  lemma TurnsAreShort(p: Plan, s: Exec, t: MainTurn, until: nat, u: CleanTurn)
    ensures MainOnce(p, s, t).state.now <= s.now + EVENT_QUANTUM + MainWork(t)
    ensures CleanOnce(p, s, until, u).state.now <= s.now + EVENT_QUANTUM + CleanWork(u)
  {
    var phase := ReapPhase(p, s, until, u);
    assert phase.state.now <= s.now + u.beforeGuard + u.beforeSample;
    var now := phase.state.now + u.beforeWait;
    assert Drained(phase.state, until, u).now == now + Min(u.slept, WaitQuantum(None, Some(until), now)) + u.work;
  }

  lemma MainTurnIsShort(p: Plan, s: Exec, t: MainTurn)
    ensures MainOnce(p, s, t).state.now <= s.now + EVENT_QUANTUM + MainWork(t)
    ensures MainOnce(p, s, t).Left? ==> MainOnce(p, s, t).state.now <= s.now + MainWork(t)
  {
  }

  lemma CleanOnceTimely(p: Plan, s: Exec, until: nat, t: CleanTurn, delta: nat)
    requires s.now <= until + delta && CleanWork(t) <= delta
    ensures CleanOnce(p, s, until, t).Left? ==> CleanOnce(p, s, until, t).state.now <= until + 2 * delta
    ensures CleanOnce(p, s, until, t).Ongoing? ==> CleanOnce(p, s, until, t).state.now <= until + delta
  {
    var phase := ReapPhase(p, s, until, t);
    assert phase.Ongoing? ==> s.now + t.beforeGuard < until;
    assert phase.state.now <= s.now + t.beforeGuard + t.beforeSample;
    assert phase.Ongoing? ==> phase.state.now == s.now + t.beforeGuard + t.beforeSample;
    var now := phase.state.now + t.beforeWait;
    assert Drained(phase.state, until, t).now == now + Min(t.slept, WaitQuantum(None, Some(until), now)) + t.work;
  }

  lemma {:induction false} CleanLoopTimely(p: Plan, s: Exec, until: nat, turns: seq<CleanTurn>, delta: nat)
    requires s.now <= until + delta
    requires forall i :: 0 <= i < |turns| ==> CleanWork(turns[i]) <= delta
    ensures CleanLoop(p, s, until, turns).state.now <= until + 2 * delta
    decreases |turns|
  {
    if turns != [] {
      assert CleanWork(turns[0]) <= delta;
      CleanOnceTimely(p, s, until, turns[0], delta);
      if CleanOnce(p, s, until, turns[0]).Ongoing? {
        CleanLoopTimely(p, CleanOnce(p, s, until, turns[0]).state, until, turns[1..], delta);
      }
    }
  }

  /** The instant of the sample that ended supervision: the terminal trigger. */
  function TriggeredAt(c: Command, w: World): nat
    requires Refusal(c, w.launch).None?
  {
    MainLoop(PlanOf(c, w.launch), FirstState(c, w.launch), w.main).state.now
  }

  /** The instant at which a finished run read its clock for the evidence. */
  function SettledAt(c: Command, w: World): nat
    requires Run(c, w).Finished?
  {
    Run(c, w).last.now + w.farewell.work
  }

  /** Elapsed time runs from the start of the run to that instant, and the trigger lies in between. */
  lemma ElapsedIsMeasured(c: Command, w: World)
    requires Run(c, w).Finished?
    ensures Refusal(c, w.launch).None?
    ensures Run(c, w).evidence.elapsed == Some(SettledAt(c, w) - w.launch.started)
    ensures w.launch.started <= TriggeredAt(c, w) <= SettledAt(c, w)
  {
    RunAs(c, w);
    FinishedAs(c, w);
    MainLoopForward(PlanOf(c, w.launch), FirstState(c, w.launch), w.main);
    CleanupMovesOn(PlanOf(c, w.launch), MainLoop(PlanOf(c, w.launch), FirstState(c, w.launch), w.main).state, w);
  }

  lemma CleanupMovesOn(p: Plan, s: Exec, w: World)
    ensures Cleanup(p, s, w).state.now >= s.now
  {
  }

  lemma CleanupTimely(p: Plan, s: Exec, w: World, delta: nat)
    requires Brisk(w, delta)
    ensures Cleanup(p, s, w).state.now <= s.now + CLEANUP_BUDGET + 3 * delta
  {
    var until := CleanupUntil(s, w);
    CleanLoopTimely(p, KillGroup(s, w.kill), until, w.clean, delta);
  }

  /**
   * Cleanup is bounded from any terminal trigger, under any policy: overflow, cancellation, deadline,
   * error or exit, a finished run is over within the budget and four stretches of work.
   */
  lemma RunsSettleAfterTheTrigger(c: Command, w: World, delta: nat)
    requires Brisk(w, delta) && Run(c, w).Finished?
    ensures Refusal(c, w.launch).None?
    ensures SettledAt(c, w) <= TriggeredAt(c, w) + CLEANUP_BUDGET + 4 * delta
  {
    RunAs(c, w);
    CleanupTimely(PlanOf(c, w.launch), MainLoop(PlanOf(c, w.launch), FirstState(c, w.launch), w.main).state, w, delta);
  }

  /**
   * From the cause itself: let turn `i` be the first to meet one. Counted from the start of that turn,
   * or of the turn before it, in which the cause came up, the run is over within the budget, one
   * quantum for the sleep it may have come up in, and the work of the turns.
   */
  lemma RunsSettleAfterACause(c: Command, w: World, i: nat, delta: nat)
    requires Brisk(w, delta) && Run(c, w).Finished? && i < |w.main|
    requires var before := MainLoop(PlanOf(c, w.launch), FirstState(c, w.launch), w.main[..i]);
      before.Ongoing? && !Uneventful(PlanOf(c, w.launch), before.state, w.main[i])
    ensures var p := PlanOf(c, w.launch); var o := FirstState(c, w.launch);
      && SettledAt(c, w) <= MainLoop(p, o, w.main[..i]).state.now + CLEANUP_BUDGET + 5 * delta
      && (i > 0 ==>
            SettledAt(c, w) <= MainLoop(p, o, w.main[..i - 1]).state.now + EVENT_QUANTUM + CLEANUP_BUDGET + 6 * delta)
  {
    RunsSettleAfterTheTrigger(c, w, delta);
    SupervisionEndsAtTheFirstCause(c, w, i);
    TriggerFollowsTheCause(PlanOf(c, w.launch), FirstState(c, w.launch), w.main, i, delta);
  }

  lemma TriggerFollowsTheCause(p: Plan, s: Exec, turns: seq<MainTurn>, i: nat, delta: nat)
    requires i < |turns| && forall k :: 0 <= k < |turns| ==> MainWork(turns[k]) <= delta
    requires MainLoop(p, s, turns[..i]).Ongoing? && MainLoop(p, s, turns[..i + 1]).Left?
    ensures var trigger := MainLoop(p, s, turns[..i + 1]).state.now;
      && trigger <= MainLoop(p, s, turns[..i]).state.now + delta
      && (i > 0 ==> trigger <= MainLoop(p, s, turns[..i - 1]).state.now + EVENT_QUANTUM + 2 * delta)
  {
    MainLoopOneMore(p, s, turns, i);
    assert MainWork(turns[i]) <= delta;
    MainTurnIsShort(p, MainLoop(p, s, turns[..i]).state, turns[i]);
    if i > 0 {
      PrefixGoesOn(p, s, turns, i);
      MainLoopOneMore(p, s, turns, i - 1);
      assert MainWork(turns[i - 1]) <= delta;
      MainTurnIsShort(p, MainLoop(p, s, turns[..i - 1]).state, turns[i - 1]);
    }
  }

  lemma PrefixGoesOn(p: Plan, s: Exec, turns: seq<MainTurn>, i: nat)
    requires 0 < i <= |turns| && MainLoop(p, s, turns[..i]).Ongoing?
    ensures MainLoop(p, s, turns[..i - 1]).Ongoing?
  {
    MainLoopSplits(p, s, turns[..i], i - 1);
    assert turns[..i][..i - 1] == turns[..i - 1];
  }

  /** Under a deadline the trigger itself is bounded, so any finished run comes in time. */
  lemma RunsAreTimely(c: Command, w: World, delta: nat)
    requires c.execution.Deadline? && Brisk(w, delta)
    requires Run(c, w).Finished?
    ensures Refusal(c, w.launch).None?
    ensures TriggeredAt(c, w) <= w.launch.started + c.execution.after + 2 * delta
    ensures Run(c, w).evidence.elapsed.Some?
    ensures Run(c, w).evidence.elapsed.value <= c.execution.after + CLEANUP_BUDGET + 6 * delta
  {
    ElapsedIsMeasured(c, w);
    RunsSettleAfterTheTrigger(c, w, delta);
    MainLoopTimely(PlanOf(c, w.launch), FirstState(c, w.launch), w.main, delta);
  }

  // ---------------------------------------------------------------------------------------------
  // The allowance is met exactly when the work fits in its margin.

  function SlowTurn(delta: nat): MainTurn {
    MainTurn(StillRunning, false, 0, 0, Ready(false, false), EVENT_QUANTUM, delta)
  }

  function LateTurn(delta: nat): MainTurn {
    MainTurn(StillRunning, false, delta, 0, Ready(false, false), 0, 0)
  }

  function IdleTurn(work: nat): CleanTurn {
    CleanTurn(0, false, 0, StillRunning, WaitReply.Exited(ExitStatus(0)), 0, Ready(false, false), EVENT_QUANTUM, work)
  }

  /** A cleanup that sleeps through `n` quanta, overruns its last turn and then its last guard. */
  function IdleCleanup(n: nat, delta: nat): seq<CleanTurn> {
    if n == 0 then [IdleTurn(0).(beforeGuard := delta)]
    else [IdleTurn(if n == 1 then delta else 0)] + IdleCleanup(n - 1, delta)
  }

  lemma {:induction false} IdleCleanupIsBrisk(n: nat, delta: nat)
    ensures forall i :: 0 <= i < |IdleCleanup(n, delta)| ==> CleanWork(IdleCleanup(n, delta)[i]) <= delta
  {
    if n > 0 {
      IdleCleanupIsBrisk(n - 1, delta);
    }
  }

  /** A leader that has not been seen to exit, over redirected streams. */
  ghost predicate Idle(s: Exec) {
    && s.core.owned.child && !s.core.seen.leaderWaitable && s.core.seen.observeError.None?
    && s.out.pipe.None? && s.err.pipe.None?
  }

  lemma IdleTurnSleeps(p: Plan, s: Exec, until: nat, work: nat)
    requires Idle(s) && s.now + EVENT_QUANTUM <= until
    ensures var once := CleanOnce(p, s, until, IdleTurn(work));
      once.Ongoing? && Idle(once.state) && once.state.now == s.now + EVENT_QUANTUM + work
  {
  }

  lemma {:induction false} IdleCleanupRuns(p: Plan, s: Exec, until: nat, n: nat, delta: nat)
    requires Idle(s)
    requires s.now + n * EVENT_QUANTUM == until + (if n == 0 then delta else 0)
    ensures var end := CleanLoop(p, s, until, IdleCleanup(n, delta)); end.Left? && end.state.now == until + 2 * delta
    decreases n
  {
    if n > 0 {
      IdleTurnSleeps(p, s, until, if n == 1 then delta else 0);
      IdleCleanupRuns(p, CleanOnce(p, s, until, IdleCleanup(n, delta)[0]).state, until, n - 1, delta);
    }
  }

  const QUANTUM_COMMAND := Command(Deadline(EVENT_QUANTUM), UnboundedCapture, UnboundedCapture)

  function SlowWorld(delta: nat): World {
    World(Launch(None, 0, 5_000_000_000 + 3 * delta, None, PipeSetup(None, None), PipeSetup(None, None), 0),
          [SlowTurn(delta), LateTurn(delta)], Kill(delta, Delivered, 0), IdleCleanup(QUANTA, delta),
          Farewell(true, delta, Delivered, true))
  }

  lemma SlowSupervision(delta: nat)
    ensures var s := FirstState(QUANTUM_COMMAND, SlowWorld(delta).launch);
      var main := MainLoop(Plan(0, Some(EVENT_QUANTUM), Some(EVENT_QUANTUM)), s, SlowWorld(delta).main);
      main.Left? && main.state.now == EVENT_QUANTUM + 2 * delta && Idle(main.state)
  {
    var p := Plan(0, Some(EVENT_QUANTUM), Some(EVENT_QUANTUM));
    var s := FirstState(QUANTUM_COMMAND, SlowWorld(delta).launch);
    var turns := SlowWorld(delta).main;
    var first := MainOnce(p, s, turns[0]);
    assert first.Ongoing? && Idle(first.state) && first.state.now == EVENT_QUANTUM + delta;
    assert turns[1..] == [LateTurn(delta)];
    assert MainLoop(p, first.state, turns[1..]) == MainOnce(p, first.state, LateTurn(delta));
  }

  lemma SlowRunFinishes(delta: nat)
    ensures Run(QUANTUM_COMMAND, SlowWorld(delta)).Finished?
    ensures TriggeredAt(QUANTUM_COMMAND, SlowWorld(delta)) == EVENT_QUANTUM + 2 * delta
    ensures Run(QUANTUM_COMMAND, SlowWorld(delta)).last.now == EVENT_QUANTUM + CLEANUP_BUDGET + 5 * delta
  {
    var c, w := QUANTUM_COMMAND, SlowWorld(delta);
    assert PlanOf(c, w.launch) == Plan(0, Some(EVENT_QUANTUM), Some(EVENT_QUANTUM));
    SlowSupervision(delta);
    SlowCleanup(PlanOf(c, w.launch), MainLoop(PlanOf(c, w.launch), FirstState(c, w.launch), w.main).state, delta);
  }

  lemma SlowWorldIsBrisk(delta: nat)
    ensures Brisk(SlowWorld(delta), delta)
  {
    IdleCleanupIsBrisk(QUANTA, delta);
  }

  lemma ElapsedSinceZero(c: Command, w: World)
    requires Run(c, w).Finished? && w.launch.started == 0
    ensures Run(c, w).evidence.elapsed == Some(Run(c, w).last.now + w.farewell.work)
  {
    ElapsedIsMeasured(c, w);
  }

  /** However small the stretches of work, some run uses all of every one of them. */
  lemma TheBoundIsTight(delta: nat)
    ensures Run(QUANTUM_COMMAND, SlowWorld(delta)).Finished?
    ensures TriggeredAt(QUANTUM_COMMAND, SlowWorld(delta)) == EVENT_QUANTUM + 2 * delta
    ensures SettledAt(QUANTUM_COMMAND, SlowWorld(delta)) == EVENT_QUANTUM + CLEANUP_BUDGET + 6 * delta
    ensures Run(QUANTUM_COMMAND, SlowWorld(delta)).evidence.elapsed == Some(EVENT_QUANTUM + CLEANUP_BUDGET + 6 * delta)
  {
    SlowRunFinishes(delta);
    ElapsedSinceZero(QUANTUM_COMMAND, SlowWorld(delta));
  }

  lemma SlowCleanup(p: Plan, s: Exec, delta: nat)
    requires Idle(s) && s.now == EVENT_QUANTUM + 2 * delta
    ensures var clean := Cleanup(p, s, SlowWorld(delta));
      clean.Left? && clean.state.now == EVENT_QUANTUM + CLEANUP_BUDGET + 5 * delta
  {
    var w := SlowWorld(delta);
    var until := CleanupUntil(s, w);
    assert until == EVENT_QUANTUM + CLEANUP_BUDGET + 3 * delta;
    IdleCleanupRuns(p, KillGroup(s, w.kill), until, QUANTA, delta);
  }

  /** The documented allowance, from the terminal trigger. */
  ghost predicate MeetsAllowance(c: Command, w: World) {
    Run(c, w).Finished? ==> Refusal(c, w.launch).None? && SettledAt(c, w) <= TriggeredAt(c, w) + CLEANUP_ALLOWANCE
  }

  /** The same from the start of a run under a deadline, as its evidence shows it. */
  ghost predicate MeetsDeadlineAllowance(c: Command, w: World) {
    c.execution.Deadline? && Run(c, w).Finished? ==>
      Run(c, w).evidence.elapsed.Some? &&
      Run(c, w).evidence.elapsed.value <= c.execution.after + CLEANUP_ALLOWANCE
  }

  /**
   * The documented 2.1 seconds hold of every run whose stretches of work are at most `delta` if and
   * only if four of them, from the trigger, or six, from the start, fit in the 100 ms of margin.
   */
  lemma RunsMeetTheAllowance(delta: nat)
    ensures (forall c, w :: Brisk(w, delta) ==> MeetsAllowance(c, w)) <==> 4 * delta <= 100_000_000
    ensures (forall c, w :: Brisk(w, delta) ==> MeetsDeadlineAllowance(c, w)) <==> 6 * delta <= 100_000_000
  {
    TheBoundIsTight(delta);
    SlowWorldIsBrisk(delta);
    assert 4 * delta > 100_000_000 ==> !MeetsAllowance(QUANTUM_COMMAND, SlowWorld(delta));
    assert 6 * delta > 100_000_000 ==> !MeetsDeadlineAllowance(QUANTUM_COMMAND, SlowWorld(delta));
    forall c: Command, w: World | Brisk(w, delta)
      ensures 4 * delta <= 100_000_000 ==> MeetsAllowance(c, w)
      ensures 6 * delta <= 100_000_000 ==> MeetsDeadlineAllowance(c, w)
    {
      BriskRunMeetsTheAllowance(c, w, delta);
    }
  }

  lemma BriskRunMeetsTheAllowance(c: Command, w: World, delta: nat)
    requires Brisk(w, delta)
    ensures 4 * delta <= 100_000_000 ==> MeetsAllowance(c, w)
    ensures 6 * delta <= 100_000_000 ==> MeetsDeadlineAllowance(c, w)
  {
    if Run(c, w).Finished? {
      RunsSettleAfterTheTrigger(c, w, delta);
      if c.execution.Deadline? {
        RunsAreTimely(c, w, delta);
      }
    }
  }

  // ---------------------------------------------------------------------------------------------
  // Termination.

  lemma {:induction false} MainLoopEnds(p: Plan, s: Exec, turns: seq<MainTurn>)
    requires p.deadline.Some?
    requires forall i :: 0 <= i < |turns| ==> MainWork(turns[i]) >= 1
    ensures MainLoop(p, s, turns).Ongoing? && turns != [] ==> s.now + |turns| <= p.deadline.value
    decreases |turns|
  {
    if turns != [] {
      assert MainWork(turns[0]) >= 1;
      var once := MainOnce(p, s, turns[0]);
      if once.Ongoing? {
        assert once.state.now >= s.now + MainWork(turns[0]);
        MainLoopEnds(p, once.state, turns[1..]);
      }
    }
  }

  lemma {:induction false} CleanLoopEnds(p: Plan, s: Exec, until: nat, turns: seq<CleanTurn>)
    requires forall i :: 0 <= i < |turns| ==> CleanWork(turns[i]) >= 1
    ensures CleanLoop(p, s, until, turns).Ongoing? && turns != [] ==> s.now + |turns| <= until
    decreases |turns|
  {
    if turns != [] {
      assert CleanWork(turns[0]) >= 1;
      var once := CleanOnce(p, s, until, turns[0]);
      if once.Ongoing? {
        assert once.state.now >= s.now + CleanWork(turns[0]);
        CleanLoopEnds(p, once.state, until, turns[1..]);
      }
    }
  }

  lemma CleanupEnds(p: Plan, s: Exec, w: World)
    requires forall i :: 0 <= i < |w.clean| ==> CleanWork(w.clean[i]) >= 1
    requires |w.clean| > CLEANUP_BUDGET
    ensures Cleanup(p, s, w).Left?
  {
    var until := CleanupUntil(s, w);
    CleanLoopEnds(p, KillGroup(s, w.kill), until, w.clean);
  }

  /**
   * Under any policy, with a clock that moves in every turn, the first cause ends supervision and the
   * run never outlasts a cleanup budget of turns after it, whatever the environment answers in them.
   */
  lemma RunsEndAfterACause(c: Command, w: World, i: nat)
    requires Refusal(c, w.launch).None? && i < |w.main|
    requires var before := MainLoop(PlanOf(c, w.launch), FirstState(c, w.launch), w.main[..i]);
      before.Ongoing? && !Uneventful(PlanOf(c, w.launch), before.state, w.main[i])
    requires forall k :: 0 <= k < |w.clean| ==> CleanWork(w.clean[k]) >= 1
    requires |w.clean| > CLEANUP_BUDGET
    ensures Run(c, w).Finished?
  {
    var p := PlanOf(c, w.launch);
    SupervisionEndsAtTheFirstCause(c, w, i);
    CleanupEnds(p, MainLoop(p, FirstState(c, w.launch), w.main).state, w);
  }

  /** With a deadline there is always a cause, after at most `after` supervision turns. */
  lemma RunsEnd(c: Command, w: World)
    requires c.execution.Deadline?
    requires forall i :: 0 <= i < |w.main| ==> MainWork(w.main[i]) >= 1
    requires forall i :: 0 <= i < |w.clean| ==> CleanWork(w.clean[i]) >= 1
    requires |w.main| > c.execution.after && |w.clean| > CLEANUP_BUDGET
    ensures !Run(c, w).InProgress?
  {
    if Refusal(c, w.launch).None? {
      var p := PlanOf(c, w.launch);
      MainLoopEnds(p, FirstState(c, w.launch), w.main);
      CleanupEnds(p, MainLoop(p, FirstState(c, w.launch), w.main).state, w);
    }
  }

  // ---------------------------------------------------------------------------------------------
  // Cleanup progress.

  /** A cleanup turn after a successful kill: the leader is waitable and every open pipe is ready. */
  ghost predicate Calm(t: CleanTurn) {
    t.leader.Waitable? && t.wait.Exited? && t.poll == Ready(true, true)
  }

  function TimeOf(turns: seq<CleanTurn>): nat {
    if turns == [] then 0 else CleanWork(turns[0]) + turns[0].slept + TimeOf(turns[1..])
  }

  /** What cleanup has still to do: answers left in open pipes, and one for an unreaped leader. */
  function Remaining(s: Exec): nat {
    Pending(s.out) + Pending(s.err) + (if s.core.owned.child then 1 else 0)
  }

  ghost predicate Finishable(s: Exec) {
    && Faithful(s.out) && Drainable(s.out) && Faithful(s.err) && Drainable(s.err)
    && (s.core.owned.child ==> s.core.seen.leaderWaitable || s.core.seen.observeError.None?)
  }

  /** Neither stream fails on the way, so one that was open can only have reached end of file. */
  ghost predicate NoNewFailure(s: Exec, t: Exec) {
    && t.out.failure == s.out.failure && t.out.redirected == s.out.redirected
    && t.err.failure == s.err.failure && t.err.redirected == s.err.redirected
  }

  lemma DrainedProgress(s: Exec, until: nat, t: CleanTurn)
    requires Finishable(s) && !s.core.owned.child && t.poll == Ready(true, true)
    ensures var d := Drained(s, until, t);
      && Finishable(d) && d.core == s.core && NoNewFailure(s, d)
      && (!Settled(s) ==> Remaining(d) < Remaining(s))
  {
    PumpProgress(s.out, CHUNKS_PER_STREAM_TURN);
    PumpProgress(s.err, CHUNKS_PER_STREAM_TURN);
    PumpFaithful(s.out, CHUNKS_PER_STREAM_TURN);
    PumpFaithful(s.err, CHUNKS_PER_STREAM_TURN);
  }

  lemma CalmReaps(p: Plan, s: Exec, until: nat, t: CleanTurn)
    requires Finishable(s) && Calm(t) && s.now + t.beforeGuard < until
    ensures var phase := ReapPhase(p, s, until, t);
      && Finishable(phase.state) && !phase.state.core.owned.child
      && phase.Left? == Settled(phase.state)
      && Remaining(phase.state) <= Remaining(s)
      && (s.core.owned.child ==> Remaining(phase.state) < Remaining(s))
  {
  }

  /** The measure falls in every calm turn, so cleanup settles once there are more turns than work. */
  lemma {:induction false} CleanupProgress(p: Plan, s: Exec, until: nat, turns: seq<CleanTurn>)
    requires Finishable(s)
    requires forall i :: 0 <= i < |turns| ==> Calm(turns[i])
    requires s.now + TimeOf(turns) < until
    requires |turns| > Remaining(s)
    ensures CleanLoop(p, s, until, turns).Left? && Settled(CleanLoop(p, s, until, turns).state)
    ensures NoNewFailure(s, CleanLoop(p, s, until, turns).state)
    decreases |turns|
  {
    var t := turns[0];
    assert Calm(t);
    CalmReaps(p, s, until, t);
    var phase := ReapPhase(p, s, until, t);
    if phase.Ongoing? {
      DrainedProgress(phase.state, until, t);
      var next := Drained(phase.state, until, t);
      assert next.now <= s.now + CleanWork(t) + t.slept;
      CleanupProgress(p, next, until, turns[1..]);
    }
  }

  /**
   * After a kill that leaves no writer behind, with a waitable leader, no errors and enough budget,
   * the run ends with both streams at end of file, the leader reaped and cleanup complete.
   */
  lemma CalmCleanupCompletes(o: Exec, p: Plan, s: Exec, until: nat, turns: seq<CleanTurn>, f: Farewell)
    requires CleanSound(o, p, s) && s.core.seen.reapFailures == []
    requires Finishable(s)
    requires forall i :: 0 <= i < |turns| ==> Calm(turns[i])
    requires s.now + TimeOf(turns) < until
    requires |turns| > Remaining(s)
    ensures var last := CleanLoop(p, s, until, turns).state;
      && last.core.signal.Some? && p.started <= last.now
      && (s.out.pipe.Some? ==> last.out.eof) && (s.err.pipe.Some? ==> last.err.eof)
      && var e := Conclude(p, last, f).evidence;
         && e.cleanup.CleanupComplete? && e.reap == LeaderReapOutcome(Reaped, [])
         && e.leaderStatus.Some?
  {
    CleanupProgress(p, s, until, turns);
    CleanLoopKeeps(o, p, s, until, turns);
    TransferParts(CleanLoop(p, s, until, turns).state.core, f.reaperAlive);
  }

  /** The whole run: supervision that was left in time, then a calm cleanup within the two-second budget. */
  lemma CalmRunsComplete(c: Command, w: World)
    requires Refusal(c, w.launch).None?
    requires var main := MainLoop(PlanOf(c, w.launch), FirstState(c, w.launch), w.main);
      && main.Left? && Finishable(main.state)
      && |w.clean| > Remaining(main.state)
      && main.state.now + w.kill.beforeSample + CLEANUP_BUDGET <= w.launch.lastInstant
    requires forall i :: 0 <= i < |w.clean| ==> Calm(w.clean[i])
    requires w.kill.work + TimeOf(w.clean) < CLEANUP_BUDGET
    ensures Run(c, w).Finished?
    ensures Run(c, w).evidence.cleanup.CleanupComplete? && Run(c, w).evidence.reap.disposition.Reaped?
  {
    var p := PlanOf(c, w.launch);
    var s := MainLoop(p, FirstState(c, w.launch), w.main).state;
    CleanupProgress(p, KillGroup(s, w.kill), CleanupUntil(s, w), w.clean);
    CleanupIsTruthful(c, w);
    FinishedCore(c, w);
    RunAs(c, w);
  }
}
