/**
 * The supervisor thread of the protocol refines the sequential streaming supervisor: whatever the
 * interleaving, what it reports is what some run of `RunManaged` reports. The protocol keeps no clock,
 * so these runs are given one that stands still except where a deadline or the budget has to pass.
 */
module ProtocolRefinement {
  import opened Base
  import opened Outcome
  import opened Policy
  import opened Lifecycle
  import opened Executor
  import opened Managed
  import opened ManagedTheorems
  import opened ManagedHandle
  import opened Protocol
  import opened ProtocolTheorems

  // ---------------------------------------------------------------------------------------------
  // Traces.

  /** The answers the thread has been given: whole turns, the turn it is in, and the later ones. */
  datatype Trace = Trace(
    watch: seq<WatchTurn>,
    before: Core,
    leader: Observation,
    tried: bool,
    kill: KillReply,
    settle: seq<SettleTurn>,
    alive: bool,
    elapsed: nat)

  const EMPTY := Trace([], NewCore(), StillRunning, false, Delivered, [], false, 0)

  const BEGINNING := Watch(NewCore(), 0)

  const NO_WAIT := WaitReply.Exited(ExitStatus(0))

  function PlanFor(configured: Option<nat>): Plan {
    Plan(0, if configured.Some? then Some(1) else None, configured)
  }

  function ScriptOf(tr: Trace): Script {
    Script(2 * CLEANUP_BUDGET, tr.watch, Kill.Kill(0, tr.kill, 0), tr.settle, Farewell(tr.alive, 0, Delivered, false))
  }

  function Reply(heard: bool): CancelReply {
    if heard then Message else Quiet
  }

  function WatchedTurn(tr: Trace, passed: bool, received: bool): WatchTurn {
    WatchTurn(tr.leader, Reply(tr.tried), if passed then 1 else 0, 0, Reply(received), 0, 0)
  }

  function SettledTurn(tr: Trace, expired: bool, wait: WaitReply, received: bool): SettleTurn {
    SettleTurn(if expired then CLEANUP_BUDGET else 0, tr.leader, wait, 0, Reply(received), 0, 0)
  }

  function Watched(configured: Option<nat>, tr: Trace): WatchEnd {
    WatchLoop(PlanFor(configured), BEGINNING, tr.watch)
  }

  function Settled(configured: Option<nat>, tr: Trace): WatchEnd {
    var watched := Watched(configured, tr).state;
    SettleLoop(KillWatched(watched, Kill.Kill(0, tr.kill, 0)), watched.now + CLEANUP_BUDGET, tr.settle)
  }

  function RunOf(configured: Option<nat>, tr: Trace): ManagedEnd {
    RunManaged(PlanFor(configured), 0, ScriptOf(tr))
  }

  lemma WatchOneMore(configured: Option<nat>, tr: Trace, t: WatchTurn)
    requires Watched(configured, tr).Pending?
    ensures Watched(configured, tr.(watch := tr.watch + [t]))
         == WatchOnce(PlanFor(configured), Watched(configured, tr).state, t)
  {
    var turns := tr.watch + [t];
    assert turns[..|tr.watch|] == tr.watch && turns[..|tr.watch| + 1] == turns;
    WatchLoopOneMore(PlanFor(configured), BEGINNING, turns, |tr.watch|);
  }

  lemma {:induction false} SettleLoopOneMore(s: Watch, until: nat, turns: seq<SettleTurn>, t: SettleTurn)
    requires SettleLoop(s, until, turns).Pending?
    ensures SettleLoop(s, until, turns + [t]) == SettleOnce(SettleLoop(s, until, turns).state, until, t)
    decreases |turns|
  {
    var all := turns + [t];
    if turns == [] {
      assert all[0] == t && all[1..] == [];
    } else {
      assert all[0] == turns[0] && all[1..] == turns[1..] + [t];
      SettleLoopOneMore(SettleOnce(s, until, turns[0]).state, until, turns[1..], t);
    }
  }

  lemma SettleOneMore(configured: Option<nat>, tr: Trace, t: SettleTurn)
    requires Settled(configured, tr).Pending?
    ensures Settled(configured, tr.(settle := tr.settle + [t]))
         == SettleOnce(Settled(configured, tr).state, Watched(configured, tr).state.now + CLEANUP_BUDGET, t)
  {
    var watched := Watched(configured, tr).state;
    SettleLoopOneMore(KillWatched(watched, Kill.Kill(0, tr.kill, 0)), watched.now + CLEANUP_BUDGET, tr.settle, t);
  }

  // ---------------------------------------------------------------------------------------------
  // What a trace explains at each point of the thread.

  /** Still observing: whole turns have led to `k`. */
  ghost predicate AtTurn(configured: Option<nat>, tr: Trace, k: Core) {
    Watched(configured, tr) == Pending(Watch(k, 0))
  }

  ghost predicate Observed(configured: Option<nat>, tr: Trace) {
    Watched(configured, tr).Done? && Watched(configured, tr).state.now <= 1
  }

  /** Cleaning up: whole turns have led to `k`, with the whole budget left. */
  ghost predicate AtCleanTurn(configured: Option<nat>, tr: Trace, k: Core) {
    Observed(configured, tr) && Settled(configured, tr) == Pending(Watch(k, Watched(configured, tr).state.now))
  }

  /** The transfer has been made; the reaper may already have waited for the child. */
  ghost predicate Concluded(configured: Option<nat>, tr: Trace, k: Core, unsettled: bool) {
    var end := RunOf(configured, tr);
    && end.Reported? && k.signal.Some? && k.(owned := end.core.owned) == end.core
    && unsettled == end.last.core.owned.child
  }

  /** The result of the explained run, but for the clock reading that goes into its evidence. */
  ghost predicate Explained(configured: Option<nat>, tr: Trace, r: RunResult) {
    var end := RunOf(configured, tr);
    && end.Reported? && end.core.signal.Some?
    && r == ManagedResult(configured, end.core, end.last.core.owned.child, tr.elapsed)
  }

  ghost predicate ThreadExplained(configured: Option<nat>, tr: Trace, s: System) {
    match s.at
    case Look => s.core.Some? && AtTurn(configured, tr, s.core.value)
    case AskCancel => AtTurn(configured, tr, tr.before) && s.core == Some(ObserveLeader(tr.before, tr.leader))
    case AskClock =>
      AtTurn(configured, tr, tr.before) && s.core == Some(SampleCancel(ObserveLeader(tr.before, tr.leader), tr.tried))
    case Listen =>
      && AtTurn(configured, tr, tr.before)
      && s.core == Some(SampleDeadline(SampleCancel(ObserveLeader(tr.before, tr.leader), tr.tried), false))
      && !SettlementTriggered(s.core.value.seen, false, false)
    case Kill => Observed(configured, tr) && s.core == Some(Watched(configured, tr).state.core)
    case Guard => s.core.Some? && AtCleanTurn(configured, tr, s.core.value)
    case Reap =>
      && AtCleanTurn(configured, tr, tr.before)
      && s.core == Some(ObserveLeader(tr.before, tr.leader)) && s.core.value.seen.leaderWaitable
    case ListenAgain =>
      && AtCleanTurn(configured, tr, tr.before)
      && s.core == Some(ObserveLeader(tr.before, tr.leader)) && !s.core.value.seen.leaderWaitable
    case Transfer =>
      && Observed(configured, tr) && Settled(configured, tr).Done?
      && s.core == Some(Settled(configured, tr).state.core)
    case Conclude(unsettled) => s.core.Some? && Concluded(configured, tr, s.core.value, unsettled)
    case DropSignal(ThenDeliver(r)) => Explained(configured, tr, r)
    case DropOffer(ThenDeliver(r)) => Explained(configured, tr, r)
    case Deliver(r) => Explained(configured, tr, r)
    case _ => true
  }

  /** The caller has joined a thread that panicked. */
  ghost predicate JoinedPanic(s: System) {
    s.caller.Returned? && s.at == Ended(true)
  }

  /** What the caller holds is the explained result, spoiled by a panic it has met, or the thread's loss. */
  ghost predicate HeldExplained(configured: Option<nat>, tr: Trace, s: System)
    requires Received(s.caller).Some?
  {
    var held := Received(s.caller).value;
    || (held == CHANNEL_FAILURE && s.resultsSent == 0)
    || exists r :: Explained(configured, tr, r) && held == Joined(r, JoinedPanic(s))
  }

  ghost predicate MessagesExplained(configured: Option<nat>, tr: Trace, s: System) {
    && (s.result.queue != [] ==> Explained(configured, tr, s.result.queue[0]))
    && (Received(s.caller).Some? ==> HeldExplained(configured, tr, s))
  }

  ghost predicate SystemExplained(configured: Option<nat>, tr: Trace, s: System) {
    ThreadExplained(configured, tr, s) && MessagesExplained(configured, tr, s)
  }

  // ---------------------------------------------------------------------------------------------
  // The steps of the thread.

  lemma LookExplained(configured: Option<nat>, tr: Trace, s: System, l: Label) returns (next: Trace)
    requires SystemSound(s) && ThreadExplained(configured, tr, s) && SupervisorEnabled(configured, s, l)
    requires l.LookAtLeader? || l.TryCancel?
    ensures ThreadExplained(configured, next, SupervisorStep(configured, s, l))
  {
    if l.LookAtLeader? {
      next := tr.(before := s.core.value, leader := l.answer);
    } else {
      next := tr.(tried := s.cancel.CanReceive());
    }
  }

  lemma ClockExplained(configured: Option<nat>, tr: Trace, s: System, passed: bool) returns (next: Trace)
    requires ThreadExplained(configured, tr, s) && SupervisorEnabled(configured, s, SampleClock(passed))
    ensures ThreadExplained(configured, next, SupervisorStep(configured, s, SampleClock(passed)))
  {
    var k := SampleDeadline(s.core.value, passed);
    if SettlementTriggered(k.seen, false, false) {
      var turn := WatchedTurn(tr, passed, false);
      next := tr.(watch := tr.watch + [turn]);
      WatchOneMore(configured, tr, turn);
      assert Looked(PlanFor(configured), Watch(tr.before, 0), turn) == Watch(k, if passed then 1 else 0);
    } else {
      next := tr;
    }
  }

  lemma ListenExplained(configured: Option<nat>, tr: Trace, s: System) returns (next: Trace)
    requires ThreadExplained(configured, tr, s) && SupervisorEnabled(configured, s, ReceiveCancel) && s.at.Listen?
    ensures ThreadExplained(configured, next, SupervisorStep(configured, s, ReceiveCancel))
  {
    var turn := WatchedTurn(tr, false, s.cancel.CanReceive());
    next := tr.(watch := tr.watch + [turn]);
    WatchOneMore(configured, tr, turn);
    assert Looked(PlanFor(configured), Watch(tr.before, 0), turn) == Watch(s.core.value, 0);
  }

  lemma ListenAgainExplained(configured: Option<nat>, tr: Trace, s: System) returns (next: Trace)
    requires ThreadExplained(configured, tr, s) && SupervisorEnabled(configured, s, ReceiveCancel) && s.at.ListenAgain?
    ensures ThreadExplained(configured, next, SupervisorStep(configured, s, ReceiveCancel))
  {
    var turn := SettledTurn(tr, false, NO_WAIT, s.cancel.CanReceive());
    next := tr.(settle := tr.settle + [turn]);
    SettleOneMore(configured, tr, turn);
  }

  lemma KillExplained(configured: Option<nat>, tr: Trace, s: System, kill: KillReply) returns (next: Trace)
    requires ThreadExplained(configured, tr, s) && SupervisorEnabled(configured, s, SignalChild(kill)) && s.at.Kill?
    ensures ThreadExplained(configured, next, SupervisorStep(configured, s, SignalChild(kill)))
  {
    next := tr.(kill := kill, settle := []);
    assert Watched(configured, next) == Watched(configured, tr);
  }

  lemma BudgetExplained(configured: Option<nat>, tr: Trace, s: System, l: Label) returns (next: Trace)
    requires ThreadExplained(configured, tr, s) && SupervisorEnabled(configured, s, l) && l.CheckBudget?
    ensures ThreadExplained(configured, next, SupervisorStep(configured, s, l))
  {
    if l.expired {
      var turn := SettledTurn(tr, true, NO_WAIT, false);
      next := tr.(settle := tr.settle + [turn]);
      SettleOneMore(configured, tr, turn);
    } else {
      next := tr.(before := s.core.value, leader := l.answer);
      assert Watched(configured, next) == Watched(configured, tr);
      assert Settled(configured, next) == Settled(configured, tr);
    }
  }

  lemma ReapExplained(configured: Option<nat>, tr: Trace, s: System, reply: WaitReply) returns (next: Trace)
    requires ThreadExplained(configured, tr, s) && SupervisorEnabled(configured, s, ReapChild(reply))
    ensures ThreadExplained(configured, next, SupervisorStep(configured, s, ReapChild(reply)))
  {
    var turn := SettledTurn(tr, false, reply, false);
    next := tr.(settle := tr.settle + [turn]);
    SettleOneMore(configured, tr, turn);
  }

  lemma RunOfSettled(configured: Option<nat>, tr: Trace)
    requires Observed(configured, tr) && Settled(configured, tr).Done?
    ensures var end := RunOf(configured, tr);
      && end.Reported? && end.last == Settled(configured, tr).state
      && end.core == TransferLeader(end.last.core, tr.alive)
  {
    var w := ScriptOf(tr);
    var watched := Watched(configured, tr).state;
    assert SettleAfterKill(watched, w) == Settled(configured, tr);
  }

  lemma TransferExplained(configured: Option<nat>, tr: Trace, s: System) returns (next: Trace)
    requires SystemSound(s) && s.at.Transfer?
    requires ThreadExplained(configured, tr, s) && SupervisorEnabled(configured, s, OfferChild)
    ensures ThreadExplained(configured, next, SupervisorStep(configured, s, OfferChild))
  {
    next := tr.(alive := s.handoff.receiver);
    assert Watched(configured, next) == Watched(configured, tr);
    assert Settled(configured, next) == Settled(configured, tr);
    RunOfSettled(configured, next);
    TransferParts(s.core.value, next.alive);
  }

  /** Who holds the child, and what became of it since, is not part of the result. */
  lemma ResultIgnoresOwned(configured: Option<nat>, k: Core, owned: Owned, unsettled: bool, elapsed: nat)
    requires k.signal.Some?
    ensures ManagedResult(configured, k.(owned := owned), unsettled, elapsed)
         == ManagedResult(configured, k, unsettled, elapsed)
  {
  }

  lemma BuildExplained(configured: Option<nat>, tr: Trace, s: System, elapsed: nat) returns (next: Trace)
    requires ThreadExplained(configured, tr, s) && SupervisorEnabled(configured, s, BuildResult(elapsed))
    ensures ThreadExplained(configured, next, SupervisorStep(configured, s, BuildResult(elapsed)))
  {
    next := tr.(elapsed := elapsed);
    assert ScriptOf(next) == ScriptOf(tr);
    ResultIgnoresOwned(configured, s.core.value, RunOf(configured, tr).core.owned, s.at.unsettled, elapsed);
  }

  /** The remaining steps of the thread add nothing to the trace. */
  predicate Silent(s: System, l: Label) {
    || l.StartReaper? || l.ArmDeadline? || l.SpawnChild? || l.SendResult? || l.Quit? || l.Panic?
    || (l.SignalChild? && !s.at.Kill?) || (l.OfferChild? && !s.at.Transfer?)
  }

  lemma SilentExplained(configured: Option<nat>, tr: Trace, s: System, l: Label)
    requires ThreadExplained(configured, tr, s) && SupervisorEnabled(configured, s, l) && Silent(s, l)
    ensures ThreadExplained(configured, tr, SupervisorStep(configured, s, l))
  {
  }

  lemma StartupExplained(configured: Option<nat>, s: System) returns (next: Trace)
    requires SystemSound(s) && SupervisorEnabled(configured, s, SendStartup)
    ensures ThreadExplained(configured, next, SupervisorStep(configured, s, SendStartup))
  {
    next := EMPTY;
    assert Watched(configured, next) == Pending(BEGINNING);
  }

  lemma ThreadStepExplained(configured: Option<nat>, tr: Trace, s: System, l: Label) returns (next: Trace)
    requires SystemSound(s) && ThreadExplained(configured, tr, s) && SupervisorEnabled(configured, s, l)
    ensures ThreadExplained(configured, next, SupervisorStep(configured, s, l))
    ensures Silent(s, l) ==> next == tr
  {
    if Silent(s, l) {
      next := tr;
      SilentExplained(configured, tr, s, l);
    } else if l.SendStartup? {
      next := StartupExplained(configured, s);
    } else if l.LookAtLeader? || l.TryCancel? {
      next := LookExplained(configured, tr, s, l);
    } else if l.SampleClock? {
      next := ClockExplained(configured, tr, s, l.passed);
    } else if l.ReceiveCancel? && s.at.Listen? {
      next := ListenExplained(configured, tr, s);
    } else if l.ReceiveCancel? {
      next := ListenAgainExplained(configured, tr, s);
    } else if l.SignalChild? {
      next := KillExplained(configured, tr, s, l.kill);
    } else if l.CheckBudget? {
      next := BudgetExplained(configured, tr, s, l);
    } else if l.ReapChild? {
      next := ReapExplained(configured, tr, s, l.reply);
    } else if l.OfferChild? {
      next := TransferExplained(configured, tr, s);
    } else {
      next := BuildExplained(configured, tr, s, l.elapsed);
    }
  }

  // ---------------------------------------------------------------------------------------------
  // Messages.

  /** Before the thread has sent its result there is nothing to explain about messages. */
  lemma NothingSentYet(configured: Option<nat>, tr: Trace, s: System)
    requires ResultSound(s) && s.resultsSent == 0 && !s.at.Ended?
    ensures MessagesExplained(configured, tr, s)
  {
  }

  lemma SilentStepKeepsMessages(configured: Option<nat>, tr: Trace, s: System, l: Label)
    requires ResultSound(s) && SystemExplained(configured, tr, s)
    requires SupervisorEnabled(configured, s, l) && Silent(s, l)
    ensures MessagesExplained(configured, tr, SupervisorStep(configured, s, l))
  {
    assert SupervisorStep(configured, s, l).caller == s.caller;
  }

  lemma LoudStepSendsNothing(configured: Option<nat>, s: System, l: Label)
    requires ResultSound(s) && SupervisorEnabled(configured, s, l) && !Silent(s, l)
    ensures var t := SupervisorStep(configured, s, l); t.resultsSent == 0 && !t.at.Ended?
  {
  }

  lemma CallerStepExplained(configured: Option<nat>, tr: Trace, s: System, l: Label)
    requires ResultSound(s) && SystemExplained(configured, tr, s) && CallerEnabled(s, l)
    ensures SystemExplained(configured, tr, CallerStep(s, l))
  {
    var t := CallerStep(s, l);
    assert t.at == s.at && t.core == s.core;
    CallerStepKeepsMessages(configured, tr, s, l);
  }

  lemma CallerStepKeepsMessages(configured: Option<nat>, tr: Trace, s: System, l: Label)
    requires ResultSound(s) && MessagesExplained(configured, tr, s) && CallerEnabled(s, l)
    ensures MessagesExplained(configured, tr, CallerStep(s, l))
  {
    var t := CallerStep(s, l);
    if l.JoinSupervisor? {
      JoinKeepsHeld(configured, tr, s);
    } else if Received(t.caller).Some? {
      assert Received(t.caller) == Received(s.caller)
          || (Received(s.caller).None? && s.result.queue != [] && Received(t.caller).value == s.result.queue[0])
          || (Received(t.caller).value == CHANNEL_FAILURE && t.resultsSent == 0);
    }
  }

  lemma JoinKeepsHeld(configured: Option<nat>, tr: Trace, s: System)
    requires ResultSound(s) && MessagesExplained(configured, tr, s) && CallerEnabled(s, JoinSupervisor)
    ensures MessagesExplained(configured, tr, CallerStep(s, JoinSupervisor))
  {
    var t := CallerStep(s, JoinSupervisor);
    assert Received(t.caller) == Some(Joined(Received(s.caller).value, s.at.panicked));
  }

  lemma ReaperStepExplained(configured: Option<nat>, tr: Trace, s: System, l: Label)
    requires SystemSound(s) && SystemExplained(configured, tr, s) && ReaperEnabled(s, l)
    ensures SystemExplained(configured, tr, ReaperStep(s, l))
  {
    var t := ReaperStep(s, l);
    assert t.at == s.at && t.caller == s.caller && t.result == s.result;
  }

  // ---------------------------------------------------------------------------------------------
  // Schedules.

  lemma StepExplained(configured: Option<nat>, tr: Trace, s: System, l: Label) returns (next: Trace)
    requires SystemSound(s) && SystemExplained(configured, tr, s) && Enabled(configured, s, l)
    ensures SystemExplained(configured, next, Step(configured, s, l))
  {
    next := tr;
    if ActorOf(l).TheCaller? {
      CallerStepExplained(configured, tr, s, l);
    } else if ActorOf(l).TheReaper? {
      ReaperStepExplained(configured, tr, s, l);
    } else {
      next := ThreadStepExplained(configured, tr, s, l);
      if Silent(s, l) {
        SilentStepKeepsMessages(configured, tr, s, l);
      } else {
        LoudStepSendsNothing(configured, s, l);
        SupervisorKeepsResult(configured, s, l);
        NothingSentYet(configured, next, SupervisorStep(configured, s, l));
      }
    }
  }

  lemma {:induction false} TraceOf(configured: Option<nat>, schedule: seq<Label>) returns (tr: Trace)
    requires After(configured, schedule).Some?
    ensures SystemExplained(configured, tr, After(configured, schedule).value)
    decreases |schedule|
  {
    if schedule == [] {
      tr := EMPTY;
    } else {
      var before := schedule[..|schedule| - 1];
      var past := TraceOf(configured, before);
      ReachableSound(configured, before);
      tr := StepExplained(configured, past, After(configured, before).value, schedule[|schedule| - 1]);
    }
  }

  /** A run's own result, in the same terms. */
  lemma RunsReportTheManagedResult(p: Plan, start: nat, w: Script)
    requires p.started <= start && RunManaged(p, start, w).Reported?
    ensures var end := RunManaged(p, start, w);
      && end.core.signal.Some? && end.evidence.elapsed.Some?
      && end.result == ManagedResult(p.configured, end.core, end.last.core.owned.child, end.evidence.elapsed.value)
  {
    ReportedAs(p, start, w);
  }

  /**
   * Every result a caller ever holds, in any interleaving with drops and panics, is that of a run of
   * the sequential supervisor, but for the clock reading, as `wait` joins it; or, when the thread
   * never sent one, the loss of the thread.
   */
  lemma ReceivedResultsAreRuns(configured: Option<nat>, schedule: seq<Label>) returns (w: Script, elapsed: nat)
    requires After(configured, schedule).Some?
    requires Received(After(configured, schedule).value.caller).Some?
    ensures var s := After(configured, schedule).value; var held := Received(s.caller).value;
      if s.resultsSent == 0 then held == CHANNEL_FAILURE
      else
        var end := RunManaged(PlanFor(configured), 0, w);
        && end.Reported? && end.core.signal.Some?
        && held == Joined(ManagedResult(configured, end.core, end.last.core.owned.child, elapsed), JoinedPanic(s))
  {
    var tr := TraceOf(configured, schedule);
    w, elapsed := ScriptOf(tr), tr.elapsed;
    OnlyAnUnsentResultIsLost(configured, schedule);
  }
}
