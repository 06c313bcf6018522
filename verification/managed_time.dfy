/** Time in the streaming supervisor: honest timeouts, cleanup bounded from any trigger, termination. */
module ManagedTime {
  import opened Base
  import opened Outcome
  import opened Policy
  import opened Lifecycle
  import opened Executor
  import opened Managed
  import opened ManagedTheorems

  function WatchWork(t: WatchTurn): nat {
    t.beforeSample + t.beforeWait + t.work
  }

  function SettleWork(t: SettleTurn): nat {
    t.beforeGuard + t.beforeWait + t.work
  }

  ghost predicate BriskScript(w: Script, delta: nat) {
    && (forall i :: 0 <= i < |w.watch| ==> WatchWork(w.watch[i]) <= delta)
    && w.kill.beforeSample + w.kill.work <= delta
    && (forall i :: 0 <= i < |w.settle| ==> SettleWork(w.settle[i]) <= delta)
    && w.farewell.work <= delta
  }

  lemma {:induction false} WatchLoopTimely(p: Plan, s: Watch, turns: seq<WatchTurn>, delta: nat)
    requires p.deadline.Some? && s.now <= p.deadline.value + delta
    requires forall i :: 0 <= i < |turns| ==> WatchWork(turns[i]) <= delta
    ensures WatchLoop(p, s, turns).state.now <= p.deadline.value + 2 * delta
    decreases |turns|
  {
    if turns != [] {
      assert WatchWork(turns[0]) <= delta;
      var once := WatchOnce(p, s, turns[0]);
      if once.Pending? {
        assert s.now + turns[0].beforeSample < p.deadline.value;
        assert once.state.now <= p.deadline.value + delta;
        WatchLoopTimely(p, once.state, turns[1..], delta);
      }
    }
  }

  lemma {:induction false} SettleLoopTimely(s: Watch, until: nat, turns: seq<SettleTurn>, delta: nat)
    requires s.now <= until + delta
    requires forall i :: 0 <= i < |turns| ==> SettleWork(turns[i]) <= delta
    ensures SettleLoop(s, until, turns).state.now <= until + 2 * delta
    decreases |turns|
  {
    if turns != [] {
      assert SettleWork(turns[0]) <= delta;
      var once := SettleOnce(s, until, turns[0]);
      if once.Pending? {
        assert once.state.now <= until + delta;
        SettleLoopTimely(once.state, until, turns[1..], delta);
      }
    }
  }

  /** The instant of the sample that ended observation, and of the one recorded as the end. */
  function WatchTriggeredAt(p: Plan, start: nat, w: Script): nat {
    WatchLoop(p, Watch(NewCore(), start), w.watch).state.now
  }

  function ReportedAt(p: Plan, start: nat, w: Script): nat
    requires p.started <= start && RunManaged(p, start, w).Reported?
  {
    RunManaged(p, start, w).last.now + w.farewell.work
  }

  lemma ManagedElapsedIsMeasured(p: Plan, start: nat, w: Script)
    requires p.started <= start && RunManaged(p, start, w).Reported?
    ensures RunManaged(p, start, w).evidence.elapsed == Some(ReportedAt(p, start, w) - p.started)
    ensures p.started <= WatchTriggeredAt(p, start, w) <= ReportedAt(p, start, w)
  {
    ReportedAs(p, start, w);
    WatchLoopForward(p, Watch(NewCore(), start), w.watch);
  }

  lemma SettlingTimely(s: Watch, w: Script, delta: nat)
    requires BriskScript(w, delta)
    ensures SettleAfterKill(s, w).state.now <= s.now + CLEANUP_BUDGET + 3 * delta
  {
    SettleLoopTimely(KillWatched(s, w.kill), SettleUntil(s, w), w.settle, delta);
  }

  /** Cleanup is bounded from any terminal trigger, under any policy. */
  lemma ManagedRunsSettleAfterTheTrigger(p: Plan, start: nat, w: Script, delta: nat)
    requires p.started <= start && RunManaged(p, start, w).Reported? && BriskScript(w, delta)
    ensures ReportedAt(p, start, w) <= WatchTriggeredAt(p, start, w) + CLEANUP_BUDGET + 4 * delta
  {
    ReportedAs(p, start, w);
    SettlingTimely(WatchLoop(p, Watch(NewCore(), start), w.watch).state, w, delta);
  }

  lemma WatchTurnIsShort(p: Plan, s: Watch, t: WatchTurn)
    ensures WatchOnce(p, s, t).state.now <= s.now + EVENT_QUANTUM + WatchWork(t)
    ensures WatchOnce(p, s, t).Done? ==> WatchOnce(p, s, t).state.now <= s.now + WatchWork(t)
  {
  }

  lemma WatchPrefixGoesOn(p: Plan, s: Watch, turns: seq<WatchTurn>, i: nat)
    requires 0 < i <= |turns| && WatchLoop(p, s, turns[..i]).Pending?
    ensures WatchLoop(p, s, turns[..i - 1]).Pending?
  {
    WatchLoopSplits(p, s, turns[..i], i - 1);
    assert turns[..i][..i - 1] == turns[..i - 1];
  }

  lemma WatchTriggerFollowsTheCause(p: Plan, s: Watch, turns: seq<WatchTurn>, i: nat, delta: nat)
    requires i < |turns| && forall k :: 0 <= k < |turns| ==> WatchWork(turns[k]) <= delta
    requires WatchLoop(p, s, turns[..i]).Pending? && WatchLoop(p, s, turns[..i + 1]).Done?
    ensures var trigger := WatchLoop(p, s, turns[..i + 1]).state.now;
      && trigger <= WatchLoop(p, s, turns[..i]).state.now + delta
      && (i > 0 ==> trigger <= WatchLoop(p, s, turns[..i - 1]).state.now + EVENT_QUANTUM + 2 * delta)
  {
    WatchLoopOneMore(p, s, turns, i);
    assert WatchWork(turns[i]) <= delta;
    WatchTurnIsShort(p, WatchLoop(p, s, turns[..i]).state, turns[i]);
    if i > 0 {
      WatchPrefixGoesOn(p, s, turns, i);
      WatchLoopOneMore(p, s, turns, i - 1);
      assert WatchWork(turns[i - 1]) <= delta;
      WatchTurnIsShort(p, WatchLoop(p, s, turns[..i - 1]).state, turns[i - 1]);
    }
  }

  /** From the cause itself, with one quantum for the wait in which it may have come up. */
  lemma ManagedRunsSettleAfterACause(p: Plan, start: nat, w: Script, i: nat, delta: nat)
    requires p.started <= start && RunManaged(p, start, w).Reported? && BriskScript(w, delta) && i < |w.watch|
    requires var before := WatchLoop(p, Watch(NewCore(), start), w.watch[..i]);
      before.Pending? && !NothingSeen(p, before.state, w.watch[i])
    ensures var s := Watch(NewCore(), start);
      && ReportedAt(p, start, w) <= WatchLoop(p, s, w.watch[..i]).state.now + CLEANUP_BUDGET + 5 * delta
      && (i > 0 ==>
            ReportedAt(p, start, w)
            <= WatchLoop(p, s, w.watch[..i - 1]).state.now + EVENT_QUANTUM + CLEANUP_BUDGET + 6 * delta)
  {
    ManagedRunsSettleAfterTheTrigger(p, start, w, delta);
    ObservationEndsAtTheFirstCause(p, start, w.watch, i);
    WatchTriggerFollowsTheCause(p, Watch(NewCore(), start), w.watch, i, delta);
  }

  /** Under a deadline the trigger itself is bounded, so any streaming result comes in time. */
  lemma ManagedRunsAreTimely(p: Plan, start: nat, w: Script, delta: nat)
    requires p.started <= start <= p.started + delta && RunManaged(p, start, w).Reported?
    requires p.configured.Some? && p.deadline == Some(p.started + p.configured.value)
    requires BriskScript(w, delta)
    ensures WatchTriggeredAt(p, start, w) <= p.deadline.value + 2 * delta
    ensures RunManaged(p, start, w).evidence.elapsed.Some?
    ensures RunManaged(p, start, w).evidence.elapsed.value <= p.configured.value + CLEANUP_BUDGET + 6 * delta
  {
    ManagedElapsedIsMeasured(p, start, w);
    ManagedRunsSettleAfterTheTrigger(p, start, w, delta);
    WatchLoopTimely(p, Watch(NewCore(), start), w.watch, delta);
  }

  /**
   * A streaming timeout is honest, and is decided before the group signal: unlike `execute`, this
   * supervisor does not look at the clock again during cleanup.
   */
  lemma ManagedTimeoutIsHonest(p: Plan, start: nat, w: Script)
    requires p.started <= start && RunManaged(p, start, w).Reported?
    requires p.configured.Some? && p.deadline == Some(p.started + p.configured.value)
    requires RunManaged(p, start, w).result.Err? && RunManaged(p, start, w).result.error.Timeout?
    ensures var error := RunManaged(p, start, w).result.error;
      && error.deadline == p.configured.value
      && error.evidence.elapsed.Some? && error.evidence.elapsed.value >= p.configured.value
      && WatchLoop(p, Watch(NewCore(), start), w.watch).state.core.seen.deadlineElapsed
  {
    ReportedAs(p, start, w);
  }

  // ---------------------------------------------------------------------------------------------
  // The allowance.

  function IdleSettleTurn(work: nat): SettleTurn {
    SettleTurn(0, StillRunning, WaitReply.Exited(ExitStatus(0)), 0, Quiet, EVENT_QUANTUM, work)
  }

  /** A cleanup that sleeps through `n` quanta, overruns its last turn and then its last guard. */
  function IdleSettling(n: nat, delta: nat): seq<SettleTurn> {
    if n == 0 then [IdleSettleTurn(0).(beforeGuard := delta)]
    else [IdleSettleTurn(if n == 1 then delta else 0)] + IdleSettling(n - 1, delta)
  }

  lemma {:induction false} IdleSettlingIsBrisk(n: nat, delta: nat)
    ensures forall i :: 0 <= i < |IdleSettling(n, delta)| ==> SettleWork(IdleSettling(n, delta)[i]) <= delta
  {
    if n > 0 {
      IdleSettlingIsBrisk(n - 1, delta);
    }
  }

  ghost predicate Unseen(k: Core) {
    k.owned.child && !k.seen.leaderWaitable && k.seen.observeError.None?
  }

  lemma {:induction false} IdleSettlingRuns(s: Watch, until: nat, n: nat, delta: nat)
    requires Unseen(s.core)
    requires s.now + n * EVENT_QUANTUM == until + (if n == 0 then delta else 0)
    ensures var end := SettleLoop(s, until, IdleSettling(n, delta)); end.Done? && end.state.now == until + 2 * delta
    decreases n
  {
    if n > 0 {
      var once := SettleOnce(s, until, IdleSettleTurn(if n == 1 then delta else 0));
      assert once.Pending? && Unseen(once.state.core);
      IdleSettlingRuns(once.state, until, n - 1, delta);
    }
  }

  /** A streaming child that is cancelled in its first turn and does not exit. */
  function SlowScript(delta: nat): Script {
    Script(5_000_000_000 + 3 * delta, [WatchTurn(StillRunning, Message, 0, 0, Quiet, 0, 0)], Kill(delta, Delivered, 0),
           IdleSettling(QUANTA, delta), Farewell(true, delta, Delivered, true))
  }

  const UNLIMITED := Plan(0, None, None)

  lemma SlowWatching(delta: nat)
    ensures var watched := WatchLoop(UNLIMITED, Watch(NewCore(), 0), SlowScript(delta).watch);
      watched.Done? && watched.state.now == 0 && Unseen(watched.state.core)
  {
    var turns := SlowScript(delta).watch;
    assert WatchLoop(UNLIMITED, Watch(NewCore(), 0), turns) == WatchOnce(UNLIMITED, Watch(NewCore(), 0), turns[0]);
  }

  lemma SlowSettling(watched: Watch, delta: nat)
    requires watched.now == 0 && Unseen(watched.core)
    ensures var end := SettleAfterKill(watched, SlowScript(delta));
      end.Done? && end.state.now == CLEANUP_BUDGET + 3 * delta
  {
    IdleSettlingRuns(KillWatched(watched, SlowScript(delta).kill), delta + CLEANUP_BUDGET, QUANTA, delta);
  }

  lemma SlowScriptIsBrisk(delta: nat)
    ensures BriskScript(SlowScript(delta), delta)
  {
    IdleSettlingIsBrisk(QUANTA, delta);
  }

  /** A cancelled run, with no deadline at all, that uses the budget and all of every stretch of work. */
  lemma TheManagedBoundIsTight(delta: nat)
    ensures RunManaged(UNLIMITED, 0, SlowScript(delta)).Reported?
    ensures WatchTriggeredAt(UNLIMITED, 0, SlowScript(delta)) == 0
    ensures ReportedAt(UNLIMITED, 0, SlowScript(delta)) == CLEANUP_BUDGET + 4 * delta
  {
    SlowWatching(delta);
    var watched := WatchLoop(UNLIMITED, Watch(NewCore(), 0), SlowScript(delta).watch).state;
    SlowSettling(watched, delta);
    ReportedIsLast(watched, SlowScript(delta));
  }

  lemma ReportedIsLast(watched: Watch, w: Script)
    requires WatchLoop(UNLIMITED, Watch(NewCore(), 0), w.watch) == Done(watched)
    requires SettleAfterKill(watched, w).Done?
    ensures RunManaged(UNLIMITED, 0, w).Reported?
    ensures RunManaged(UNLIMITED, 0, w).last == SettleAfterKill(watched, w).state
  {
  }

  ghost predicate ManagedMeetsAllowance(p: Plan, start: nat, w: Script) {
    p.started <= start && RunManaged(p, start, w).Reported? ==>
      ReportedAt(p, start, w) <= WatchTriggeredAt(p, start, w) + CLEANUP_ALLOWANCE
  }

  /** From the trigger, every streaming run meets the allowance iff four stretches fit in its margin. */
  lemma ManagedRunsMeetTheAllowance(delta: nat)
    ensures (forall p, start, w :: BriskScript(w, delta) ==> ManagedMeetsAllowance(p, start, w)) <==>
              4 * delta <= 100_000_000
  {
    TheManagedBoundIsTight(delta);
    SlowScriptIsBrisk(delta);
    assert 4 * delta > 100_000_000 ==> !ManagedMeetsAllowance(UNLIMITED, 0, SlowScript(delta));
    forall p: Plan, start: nat, w: Script | BriskScript(w, delta)
      ensures 4 * delta <= 100_000_000 ==> ManagedMeetsAllowance(p, start, w)
    {
      if p.started <= start && RunManaged(p, start, w).Reported? {
        ManagedRunsSettleAfterTheTrigger(p, start, w, delta);
      }
    }
  }

  // ---------------------------------------------------------------------------------------------
  // Termination.

  lemma {:induction false} WatchLoopEnds(p: Plan, s: Watch, turns: seq<WatchTurn>)
    requires p.deadline.Some?
    requires forall i :: 0 <= i < |turns| ==> WatchWork(turns[i]) >= 1
    ensures WatchLoop(p, s, turns).Pending? && turns != [] ==> s.now + |turns| <= p.deadline.value
    decreases |turns|
  {
    if turns != [] {
      assert WatchWork(turns[0]) >= 1;
      var once := WatchOnce(p, s, turns[0]);
      if once.Pending? {
        WatchLoopEnds(p, once.state, turns[1..]);
      }
    }
  }

  lemma {:induction false} SettleLoopEnds(s: Watch, until: nat, turns: seq<SettleTurn>)
    requires forall i :: 0 <= i < |turns| ==> SettleWork(turns[i]) >= 1
    ensures SettleLoop(s, until, turns).Pending? && turns != [] ==> s.now + |turns| <= until
    decreases |turns|
  {
    if turns != [] {
      assert SettleWork(turns[0]) >= 1;
      var once := SettleOnce(s, until, turns[0]);
      if once.Pending? {
        SettleLoopEnds(once.state, until, turns[1..]);
      }
    }
  }

  lemma SettlingEnds(s: Watch, w: Script)
    requires forall i :: 0 <= i < |w.settle| ==> SettleWork(w.settle[i]) >= 1
    requires |w.settle| > CLEANUP_BUDGET
    ensures SettleAfterKill(s, w).Done?
  {
    SettleLoopEnds(KillWatched(s, w.kill), SettleUntil(s, w), w.settle);
  }

  /** Under any policy, with a clock that moves, the first cause ends observation and the run reports. */
  lemma ManagedRunsEndAfterACause(p: Plan, start: nat, w: Script, i: nat)
    requires p.started <= start && i < |w.watch|
    requires var before := WatchLoop(p, Watch(NewCore(), start), w.watch[..i]);
      before.Pending? && !NothingSeen(p, before.state, w.watch[i])
    requires forall k :: 0 <= k < |w.settle| ==> SettleWork(w.settle[k]) >= 1
    requires |w.settle| > CLEANUP_BUDGET
    ensures RunManaged(p, start, w).Reported?
  {
    ObservationEndsAtTheFirstCause(p, start, w.watch, i);
    SettlingEnds(WatchLoop(p, Watch(NewCore(), start), w.watch).state, w);
  }

  /** With a deadline there is always a cause. */
  lemma ManagedRunsEnd(p: Plan, start: nat, w: Script)
    requires p.started <= start && p.deadline.Some?
    requires forall i :: 0 <= i < |w.watch| ==> WatchWork(w.watch[i]) >= 1
    requires forall i :: 0 <= i < |w.settle| ==> SettleWork(w.settle[i]) >= 1
    requires start + |w.watch| > p.deadline.value && |w.watch| > 0 && |w.settle| > CLEANUP_BUDGET
    ensures RunManaged(p, start, w).Reported?
  {
    WatchLoopEnds(p, Watch(NewCore(), start), w.watch);
    SettlingEnds(WatchLoop(p, Watch(NewCore(), start), w.watch).state, w);
  }
}
