/** What every run of the streaming supervisor guarantees. */
module ManagedTheorems {
  import opened Base
  import opened Outcome
  import opened Policy
  import opened Lifecycle
  import opened Classification
  import opened Executor
  import opened ExecutorTheorems
  import opened Managed

  ghost predicate Timed(p: Plan, s: Watch) {
    p.started <= s.now && Honest(p.deadline, s.core, s.now)
  }

  lemma WatchOnceKeeps(p: Plan, s: Watch, t: WatchTurn)
    requires Watching(s.core) && Timed(p, s)
    ensures Watching(WatchOnce(p, s, t).state.core) && Timed(p, WatchOnce(p, s, t).state)
  {
    var now := s.now + t.beforeSample;
    var k := ObserveLeader(s.core, t.leader);
    var k' := SampleCancel(k, t.tried.Heard());
    ObserveKeeps(s.core, t.leader);
    SampleKeeps(k, t.tried.Heard(), false);
    SampleKeeps(k', false, DeadlinePassed(p.deadline, now));
    HonestSamples(p.deadline, s.core, s.now, false, t.leader, now);
    HonestSamples(p.deadline, k, now, t.tried.Heard(), t.leader, now);
    HonestSamples(p.deadline, k', now, false, t.leader, now);
    var looked := Looked(p, s, t);
    SampleKeeps(looked.core, t.received.Heard(), false);
    HonestSamples(p.deadline, looked.core, looked.now, t.received.Heard(), t.leader, WatchOnce(p, s, t).state.now);
  }

  lemma {:induction false} WatchLoopKeeps(p: Plan, s: Watch, turns: seq<WatchTurn>)
    requires Watching(s.core) && Timed(p, s)
    ensures Watching(WatchLoop(p, s, turns).state.core) && Timed(p, WatchLoop(p, s, turns).state)
    decreases |turns|
  {
    if turns != [] {
      WatchOnceKeeps(p, s, turns[0]);
      WatchLoopKeeps(p, WatchOnce(p, s, turns[0]).state, turns[1..]);
    }
  }

  lemma SettleOnceKeeps(p: Plan, s: Watch, until: nat, t: SettleTurn)
    requires Cleaning(s.core) && Timed(p, s) && s.core.seen.reapFailures == [] && s.core.owned.child
    ensures var once := SettleOnce(s, until, t);
      && Cleaning(once.state.core) && Timed(p, once.state)
      && once.state.core.seen.deadlineElapsed == s.core.seen.deadlineElapsed
      && (once.Pending? ==> once.state.core.seen.reapFailures == [] && once.state.core.owned.child)
  {
    var guarded := s.now + t.beforeGuard;
    var observed := ObserveLeader(s.core, t.leader);
    ObserveKeeps(s.core, t.leader);
    HonestSamples(p.deadline, s.core, s.now, false, t.leader, guarded);
    if observed.seen.leaderWaitable {
      ReapKeeps(observed, t.wait);
      ReapKeepsHonest(p.deadline, observed, guarded, t.wait);
    } else {
      SampleKeeps(observed, t.received.Heard(), false);
      HonestSamples(p.deadline, observed, guarded, t.received.Heard(), t.leader,
                    SettleOnce(s, until, t).state.now);
    }
  }

  lemma {:induction false} SettleLoopKeeps(p: Plan, s: Watch, until: nat, turns: seq<SettleTurn>)
    requires Cleaning(s.core) && Timed(p, s) && s.core.seen.reapFailures == [] && s.core.owned.child
    ensures Cleaning(SettleLoop(s, until, turns).state.core) && Timed(p, SettleLoop(s, until, turns).state)
    ensures SettleLoop(s, until, turns).state.core.seen.deadlineElapsed == s.core.seen.deadlineElapsed
    decreases |turns|
  {
    if turns != [] {
      SettleOnceKeeps(p, s, until, turns[0]);
      if SettleOnce(s, until, turns[0]).Pending? {
        SettleLoopKeeps(p, SettleOnce(s, until, turns[0]).state, until, turns[1..]);
      }
    }
  }

  lemma WatchedSound(p: Plan, start: nat, w: Script)
    requires p.started <= start
    ensures var s := WatchLoop(p, Watch(NewCore(), start), w.watch).state; Watching(s.core) && Timed(p, s)
  {
    WatchLoopKeeps(p, Watch(NewCore(), start), w.watch);
  }

  lemma SettledSound(p: Plan, s: Watch, w: Script)
    requires Watching(s.core) && Timed(p, s)
    ensures var t := SettleAfterKill(s, w).state;
      Cleaning(t.core) && Timed(p, t) && t.core.seen.deadlineElapsed == s.core.seen.deadlineElapsed
  {
    SignalStartsCleaning(s.core, w.kill.reply);
    SettleLoopKeeps(p, KillWatched(s, w.kill), SettleUntil(s, w), w.settle);
  }

  /** How a reported run was put together, and the lifecycle facts that hold of it. */
  lemma ReportedAs(p: Plan, start: nat, w: Script)
    requires p.started <= start && RunManaged(p, start, w).Reported?
    ensures var end := RunManaged(p, start, w); var k := end.core; var e := end.evidence;
      && Cleaning(end.last.core) && Timed(p, end.last) && Parted(k) && k.signal.Some?
      && k == TransferLeader(end.last.core, w.farewell.reaperAlive)
      && end.dropped == DropOwned(k.owned, w.farewell.dropReply, w.farewell.dropAlive)
      && e == EvidenceOf(k, end.last.now + w.farewell.work - p.started, RedirectedReport(Stdout),
                         RedirectedReport(Stderr),
                         if end.last.core.owned.child then CleanupPartial([], true) else CleanupComplete)
      && end.result == ClassifyManaged(ChoosePrimary(k.seen, None, None), p.configured, e)
      && end.last == SettleAfterKill(WatchLoop(p, Watch(NewCore(), start), w.watch).state, w).state
      && k.seen.deadlineElapsed == WatchLoop(p, Watch(NewCore(), start), w.watch).state.core.seen.deadlineElapsed
  {
    WatchedSound(p, start, w);
    var s := WatchLoop(p, Watch(NewCore(), start), w.watch).state;
    SettledSound(p, s, w);
    TransferParts(SettleAfterKill(s, w).state.core, w.farewell.reaperAlive);
  }

  function ManagedOwned(end: ManagedEnd): Owned {
    match end
    case Supervising(s) => s.core.owned
    case Reported(_, _, _, _, dropped) => dropped
  }

  lemma ManagedOwnedIsSound(p: Plan, start: nat, w: Script)
    requires p.started <= start
    ensures SoundOwned(ManagedOwned(RunManaged(p, start, w)))
    ensures RunManaged(p, start, w).Reported? ==> SoundOwned(RunManaged(p, start, w).core.owned)
  {
    var end := RunManaged(p, start, w);
    WatchedSound(p, start, w);
    SettledSound(p, WatchLoop(p, Watch(NewCore(), start), w.watch).state, w);
    if end.Reported? {
      ReportedAs(p, start, w);
      DropAfterTransfer(end.core, w.farewell.dropReply, w.farewell.dropAlive);
    }
  }

  /** Streaming supervisions obey the same law, whenever they stop or panic, and so does the reaper after them. */
  lemma EveryManagedRunIsLawful(p: Plan, start: nat, w: Script, n: nat, kill: KillReply, alive: bool, reply: WaitReply)
    requires p.started <= start && n <= Length(ManagedOwned(RunManaged(p, start, w)).history)
    ensures var end := RunManaged(p, start, w); var o := ManagedOwned(end);
      && Lawful(o.history) && o == HolderOf(o.history)
      && (end.Reported? ==> end.core.owned == HolderOf(end.core.owned.history))
      && (end.Reported? && end.core.disposition.BackgroundReaper? ==> Lawful(Then(o.history, Waited(Reaper, reply))))
      && (Has(Prefix(o.history, n), Spawning) ==>
            Lawful(DropOwned(HolderOf(Prefix(o.history, n)), kill, alive).history))
  {
    var end := RunManaged(p, start, w);
    var o := ManagedOwned(end);
    ManagedOwnedIsSound(p, start, w);
    SoundOwnedIsHolder(o);
    if Has(Prefix(o.history, n), Spawning) {
      PanicIsLawful(o.history, n, kill, alive);
    }
    if end.Reported? {
      SoundOwnedIsHolder(end.core.owned);
      ReportedAs(p, start, w);
      DropAfterTransfer(end.core, w.farewell.dropReply, w.farewell.dropAlive);
      if end.core.disposition.BackgroundReaper? {
        ReaperMayWait(end.dropped.history, reply);
      }
    }
  }

  /** The streaming evidence is as truthful as the captured one. */
  lemma ManagedEvidenceIsTruthful(p: Plan, start: nat, w: Script)
    requires p.started <= start && RunManaged(p, start, w).Reported?
    ensures var end := RunManaged(p, start, w); var e := end.evidence; var h := end.dropped.history;
      && e.leaderStatus == ReapedStatus(h)
      && Some(e.signal) == FirstSignal(h)
      && (e.reap.disposition.Reaped? <==> Has(h, SupervisorReap))
      && (e.reap.disposition.BackgroundReaper? <==> Has(h, Acceptance))
      && (e.reap.disposition.Unreaped? <==> Has(h, Offer) && !Has(h, Acceptance))
      && (e.reap.disposition.Unreaped? <==> end.dropped.child)
      && (e.cleanup.CleanupComplete? <==> e.reap.disposition.Reaped?)
      && (end.core.seen.cancelled <==> Has(h, CancelSeen))
      && (end.core.seen.deadlineElapsed <==> Has(h, DeadlineSeen))
  {
    ReportedAs(p, start, w);
    var end := RunManaged(p, start, w);
    DropAfterTransfer(end.core, w.farewell.dropReply, w.farewell.dropAlive);
    DropKeepsFacts(end.core.owned, w.farewell.dropReply, w.farewell.dropAlive);
  }

  /** What an exit is reported as, read off the history and the two outcomes that can spoil it. */
  function ExitVerdict(h: History, e: LifecycleEvidence): RunResult {
    if e.cleanup != CleanupComplete then Err(CleanupIncomplete(e))
    else if e.signal != Sent && e.signal != AlreadyGone then Err(LifecycleFailed(e))
    else match ReapedStatus(h)
      case Some(status) => if status.Success() then Ok(Output(status, e)) else Err(NonZeroExit(e))
      case None => Err(SupervisionFailed(Synthetic(NoReapedStatus), e))
  }

  /** Every value of the observations has one verdict: cancellation, then the deadline, then an error, then the exit. */
  lemma ManagedVerdicts(p: Plan, start: nat, w: Script)
    requires p.started <= start && RunManaged(p, start, w).Reported?
    requires p.deadline.Some? <==> p.configured.Some?
    ensures var end := RunManaged(p, start, w);
      var e := end.evidence; var r := end.result; var h := end.dropped.history;
      && (Has(h, CancelSeen) ==> r == Err(Cancelled(e)))
      && (!Has(h, CancelSeen) && Has(h, DeadlineSeen) ==>
            p.configured.Some? && r == Err(Timeout(p.configured.value, e)))
      && (!Has(h, CancelSeen) && !Has(h, DeadlineSeen) && end.core.seen.observeError.Some? ==>
            r == Err(SupervisionFailed(end.core.seen.observeError.value, e)) && e.reap.disposition != Reaped)
      && (!Has(h, CancelSeen) && !Has(h, DeadlineSeen) && end.core.seen.observeError.None? ==> r == ExitVerdict(h, e))
      && (e.cleanup.CleanupComplete? ==> ReapedStatus(h).Some?)
  {
    ReportedAs(p, start, w);
    ManagedEvidenceIsTruthful(p, start, w);
    NoReapAfterError(p, start, w);
  }

  /** Turn `t` of an observation at `s` meets nothing to settle for. */
  ghost predicate NothingSeen(p: Plan, s: Watch, t: WatchTurn) {
    && s.core.seen.observeError.None? && !s.core.seen.leaderWaitable && !s.core.seen.cancelled
    && (t.leader.StillRunning? || t.leader.ObserveInterrupted?)
    && t.tried.Quiet?
    && (p.deadline.Some? ==> s.now + t.beforeSample < p.deadline.value)
  }

  lemma {:induction false} WatchLoopSplits(p: Plan, s: Watch, turns: seq<WatchTurn>, i: nat)
    requires i <= |turns|
    ensures var head := WatchLoop(p, s, turns[..i]);
      WatchLoop(p, s, turns) == if head.Done? then head else WatchLoop(p, head.state, turns[i..])
    decreases |turns|
  {
    if i > 0 {
      var once := WatchOnce(p, s, turns[0]);
      assert turns[..i][0] == turns[0] && turns[..i][1..] == turns[1..][..i - 1];
      if once.Pending? {
        WatchLoopSplits(p, once.state, turns[1..], i - 1);
        assert turns[1..][i - 1..] == turns[i..];
      }
    }
  }

  lemma WatchTurnEndsAtACause(p: Plan, s: Watch, t: WatchTurn)
    requires s.core.owned.child
    ensures WatchOnce(p, s, t).Pending? <==> NothingSeen(p, s, t)
  {
  }

  lemma WatchLoopOneMore(p: Plan, s: Watch, turns: seq<WatchTurn>, i: nat)
    requires i < |turns| && WatchLoop(p, s, turns[..i]).Pending?
    ensures WatchLoop(p, s, turns[..i + 1]) == WatchOnce(p, WatchLoop(p, s, turns[..i]).state, turns[i])
  {
    var upto := turns[..i + 1];
    WatchLoopSplits(p, s, upto, i);
    assert upto[..i] == turns[..i] && upto[i..] == [turns[i]];
    assert WatchLoop(p, WatchLoop(p, s, turns[..i]).state, [turns[i]])
        == WatchOnce(p, WatchLoop(p, s, turns[..i]).state, turns[i]);
  }

  lemma WatchEndsAt(p: Plan, s: Watch, turns: seq<WatchTurn>, i: nat)
    requires i < |turns| && WatchLoop(p, s, turns[..i]).Pending?
    requires WatchLoop(p, s, turns[..i]).state.core.owned.child
    ensures var before, after := WatchLoop(p, s, turns[..i]), WatchLoop(p, s, turns[..i + 1]);
      && (after.Pending? <==> NothingSeen(p, before.state, turns[i]))
      && (after.Done? ==> WatchLoop(p, s, turns) == after)
  {
    WatchLoopOneMore(p, s, turns, i);
    WatchLoopSplits(p, s, turns, i + 1);
    WatchTurnEndsAtACause(p, WatchLoop(p, s, turns[..i]).state, turns[i]);
  }

  /** Observation ends in the first turn that meets a request, the deadline, an error or the leader. */
  lemma ObservationEndsAtTheFirstCause(p: Plan, start: nat, turns: seq<WatchTurn>, i: nat)
    requires p.started <= start && i < |turns| && WatchLoop(p, Watch(NewCore(), start), turns[..i]).Pending?
    ensures var s := Watch(NewCore(), start);
      var before, after := WatchLoop(p, s, turns[..i]), WatchLoop(p, s, turns[..i + 1]);
      && (after.Pending? <==> NothingSeen(p, before.state, turns[i]))
      && (after.Done? ==> WatchLoop(p, s, turns) == after)
  {
    WatchLoopKeeps(p, Watch(NewCore(), start), turns[..i]);
    WatchEndsAt(p, Watch(NewCore(), start), turns, i);
  }

  function WatchTurns(p: Plan, s: Watch, turns: seq<WatchTurn>): nat
    decreases |turns|
  {
    if turns == [] then 0
    else
      var once := WatchOnce(p, s, turns[0]);
      if once.Done? then 1 else 1 + WatchTurns(p, once.state, turns[1..])
  }

  function SettleWaits(s: Watch, until: nat, turns: seq<SettleTurn>): nat
    decreases |turns|
  {
    if turns == [] || SettleOnce(s, until, turns[0]).Done? then 0
    else 1 + SettleWaits(SettleOnce(s, until, turns[0]).state, until, turns[1..])
  }

  lemma {:induction false} WatchHears(p: Plan, s: Watch, turns: seq<WatchTurn>, i: nat)
    ensures s.core.seen.cancelled ==> WatchLoop(p, s, turns).state.core.seen.cancelled
    ensures i < |turns| && i < WatchTurns(p, s, turns) && turns[i].tried.Heard() ==>
              WatchLoop(p, s, turns).state.core.seen.cancelled
    ensures i < |turns| && i + 1 < WatchTurns(p, s, turns) && turns[i].received.Heard() ==>
              WatchLoop(p, s, turns).state.core.seen.cancelled
    decreases |turns|
  {
    if turns != [] {
      var once := WatchOnce(p, s, turns[0]);
      if once.Pending? {
        WatchHears(p, once.state, turns[1..], if i == 0 then 0 else i - 1);
      }
    }
  }

  lemma {:induction false} SettleHears(s: Watch, until: nat, turns: seq<SettleTurn>, i: nat)
    ensures s.core.seen.cancelled ==> SettleLoop(s, until, turns).state.core.seen.cancelled
    ensures i < |turns| && i < SettleWaits(s, until, turns) && turns[i].received.Heard() ==>
              SettleLoop(s, until, turns).state.core.seen.cancelled
    decreases |turns|
  {
    if turns != [] {
      var once := SettleOnce(s, until, turns[0]);
      if once.Pending? {
        SettleHears(once.state, until, turns[1..], if i == 0 then 0 else i - 1);
      }
    }
  }

  /** Every message or hangup any look at the channel answers with, in either loop, makes the result `Cancelled`. */
  lemma EveryRequestCounts(p: Plan, start: nat, w: Script, i: nat)
    requires p.started <= start && RunManaged(p, start, w).Reported?
    requires var s := WatchLoop(p, Watch(NewCore(), start), w.watch).state;
      var taken := WatchTurns(p, Watch(NewCore(), start), w.watch);
      var until := SettleUntil(s, w);
      || (i < |w.watch| && i < taken && w.watch[i].tried.Heard())
      || (i < |w.watch| && i + 1 < taken && w.watch[i].received.Heard())
      || (i < |w.settle| && i < SettleWaits(KillWatched(s, w.kill), until, w.settle) && w.settle[i].received.Heard())
    ensures RunManaged(p, start, w).result == Err(Cancelled(RunManaged(p, start, w).evidence))
  {
    var s := WatchLoop(p, Watch(NewCore(), start), w.watch).state;
    WatchHears(p, Watch(NewCore(), start), w.watch, i);
    SettlingHears(s, w, i);
    ReportedAs(p, start, w);
  }

  lemma SettlingHears(s: Watch, w: Script, i: nat)
    ensures var until := SettleUntil(s, w);
      s.core.seen.cancelled ||
      (i < |w.settle| && i < SettleWaits(KillWatched(s, w.kill), until, w.settle) && w.settle[i].received.Heard()) ==>
        SettleAfterKill(s, w).state.core.seen.cancelled
  {
    SettleHears(KillWatched(s, w.kill), SettleUntil(s, w), w.settle, i);
  }

  /** In a streaming run an observation error always comes before waitability, so it excludes a reap. */
  lemma NoReapAfterError(p: Plan, start: nat, w: Script)
    requires p.started <= start && RunManaged(p, start, w).Reported?
    ensures var end := RunManaged(p, start, w);
      end.core.seen.observeError.Some? ==> !end.core.seen.leaderWaitable && end.last.core.owned.child
  {
    ReportedAs(p, start, w);
    WatchedSound(p, start, w);
    var s := WatchLoop(p, Watch(NewCore(), start), w.watch).state;
    ErrorExcludesWaitable(p, Watch(NewCore(), start), w.watch);
    SettleErrorExcludesWaitable(KillWatched(s, w.kill), SettleUntil(s, w),
                                w.settle);
  }

  ghost predicate Exclusive(k: Core) {
    k.seen.observeError.Some? ==> !k.seen.leaderWaitable
  }

  lemma {:induction false} ErrorExcludesWaitable(p: Plan, s: Watch, turns: seq<WatchTurn>)
    requires Exclusive(s.core)
    ensures Exclusive(WatchLoop(p, s, turns).state.core)
    decreases |turns|
  {
    if turns != [] {
      ErrorExcludesWaitable(p, WatchOnce(p, s, turns[0]).state, turns[1..]);
    }
  }

  lemma {:induction false} SettleErrorExcludesWaitable(s: Watch, until: nat, turns: seq<SettleTurn>)
    requires Exclusive(s.core)
    ensures Exclusive(SettleLoop(s, until, turns).state.core)
    decreases |turns|
  {
    if turns != [] {
      SettleErrorExcludesWaitable(SettleOnce(s, until, turns[0]).state, until, turns[1..]);
    }
  }

  // ---------------------------------------------------------------------------------------------
  // Where the two supervisors differ.

  /**
   * The streaming supervisor decides on a timeout before the group signal: it reports one exactly when
   * its observation loop saw the deadline and nobody asked for cancellation, however long cleanup takes.
   */
  lemma ManagedTimeoutsPrecedeTheKill(p: Plan, start: nat, w: Script)
    requires p.started <= start && RunManaged(p, start, w).Reported?
    requires p.deadline.Some? <==> p.configured.Some?
    ensures var end := RunManaged(p, start, w);
      (end.result.Err? && end.result.error.Timeout?) <==>
        && !Has(end.dropped.history, CancelSeen)
        && WatchLoop(p, Watch(NewCore(), start), w.watch).state.core.seen.deadlineElapsed
  {
    ManagedVerdicts(p, start, w);
    ManagedEvidenceIsTruthful(p, start, w);
    ReportedAs(p, start, w);
  }

  const LATE_KILL := Kill(0, Delivered, 20)
  const CALM_FAREWELL := Farewell(true, 0, Delivered, true)

  /** A leader seen waitable before its deadline of 10, and a kill that takes until 20. */
  function LateScript(status: ExitStatus): Script {
    Script(5_000_000_000, [WatchTurn(Waitable, Quiet, 0, 0, Quiet, 0, 0)], LATE_KILL,
           [SettleTurn(0, Waitable, Exited(status), 0, Quiet, 0, 0)], CALM_FAREWELL)
  }

  function LateWorld(status: ExitStatus): World {
    World(Launch(None, 0, 5_000_000_000, None, PipeSetup(None, None), PipeSetup(None, None), 0),
          [MainTurn(Waitable, false, 0, 0, Ready(false, false), 0, 0)], LATE_KILL,
          [CleanTurn(0, false, 0, Waitable, Exited(status), 0, Ready(false, false), 0, 0)], CALM_FAREWELL)
  }

  /** The streaming supervisor reports that exit as a success. */
  lemma LateCleanupKeepsAManagedExit(status: ExitStatus)
    requires status.Success()
    ensures var end := RunManaged(Plan(0, Some(10), Some(10)), 0, LateScript(status));
      end.Reported? && end.result == Ok(Output(status, end.evidence))
  {
    var p := Plan(0, Some(10), Some(10));
    var w := LateScript(status);
    var s := Watch(NewCore(), 0);
    assert WatchLoop(p, s, w.watch) == WatchOnce(p, s, w.watch[0]);
    var killed := KillWatched(WatchOnce(p, s, w.watch[0]).state, w.kill);
    assert SettleLoop(killed, CLEANUP_BUDGET, w.settle) == SettleOnce(killed, CLEANUP_BUDGET, w.settle[0]);
  }

  /** The capturing supervisor samples the deadline again during cleanup, and reports a timeout. */
  lemma LateCleanupTimesACaptureOut(status: ExitStatus)
    ensures var c := Command(Deadline(10), UnboundedCapture, UnboundedCapture); var end := Run(c, LateWorld(status));
      end.Finished? && end.result == Err(Timeout(10, end.evidence)) && end.evidence.leaderStatus == Some(status)
  {
    var c := Command(Deadline(10), UnboundedCapture, UnboundedCapture);
    var w := LateWorld(status);
    var p := Plan(0, Some(10), Some(10));
    assert PlanOf(c, w.launch) == p;
    var s := FirstState(c, w.launch);
    assert MainLoop(p, s, w.main) == MainOnce(p, s, w.main[0]);
    var main := MainOnce(p, s, w.main[0]);
    assert main == Left(Sampled(p, s, w.main[0]));
    var killed := KillGroup(main.state, w.kill);
    var clean := CleanOnce(p, killed, CLEANUP_BUDGET, w.clean[0]);
    assert CleanLoop(p, killed, CLEANUP_BUDGET, w.clean) == clean;
    assert Cleanup(p, main.state, w) == clean;
    assert clean.Left? && clean.state.core.seen.deadlineElapsed && clean.state.core.status == Some(status);
    ConcludedAs(p, clean.state, w.farewell);
  }
}
