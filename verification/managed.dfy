/** The streaming supervisor (`supervise_managed` in supervisor.rs). */
module Managed {
  import opened Base
  import opened Outcome
  import opened Lifecycle
  import opened Classification
  import opened Executor

  /** What the cancellation channel answers to `try_recv` and `recv_timeout`. */
  datatype CancelReply = Message | Disconnected | Quiet {
    predicate Heard() {
      !Quiet?
    }
  }

  datatype WatchTurn = WatchTurn(
    leader: Observation,
    tried: CancelReply,
    beforeSample: nat,
    beforeWait: nat,
    received: CancelReply,
    slept: nat,
    work: nat)

  datatype SettleTurn = SettleTurn(
    beforeGuard: nat,
    leader: Observation,
    wait: WaitReply,
    beforeWait: nat,
    received: CancelReply,
    slept: nat,
    work: nat)

  /** Answers to one supervision, from the moment the startup message has been sent. */
  datatype Script = Script(
    lastInstant: nat,
    watch: seq<WatchTurn>,
    kill: Kill,
    settle: seq<SettleTurn>,
    farewell: Farewell)

  datatype Watch = Watch(core: Core, now: nat)

  datatype WatchEnd = Pending(state: Watch) | Done(state: Watch)

  datatype ManagedEnd =
    | Supervising(state: Watch)
    | Reported(result: RunResult, evidence: LifecycleEvidence, last: Watch, core: Core, dropped: Owned)

  function Looked(p: Plan, s: Watch, t: WatchTurn): Watch {
    var now := s.now + t.beforeSample;
    Watch(SampleDeadline(SampleCancel(ObserveLeader(s.core, t.leader), t.tried.Heard()),
                         DeadlinePassed(p.deadline, now)), now)
  }

  /** `recv_timeout`: at most `wait` long, and a message or a hangup counts as cancellation. */
  function Listened(s: Watch, wait: nat, reply: CancelReply, slept: nat, work: nat): Watch {
    Watch(SampleCancel(s.core, reply.Heard()), s.now + Min(slept, wait) + work)
  }

  function WatchOnce(p: Plan, s: Watch, t: WatchTurn): WatchEnd {
    var looked := Looked(p, s, t);
    if SettlementTriggered(looked.core.seen, false, false) then Done(looked)
    else
      var now := looked.now + t.beforeWait;
      Pending(Listened(looked.(now := now), WaitQuantum(p.deadline, None, now), t.received, t.slept, t.work))
  }

  function WatchLoop(p: Plan, s: Watch, turns: seq<WatchTurn>): WatchEnd
    decreases |turns|
  {
    if turns == [] then Pending(s)
    else
      var once := WatchOnce(p, s, turns[0]);
      if once.Done? then once else WatchLoop(p, once.state, turns[1..])
  }

  function KillWatched(s: Watch, k: Kill): Watch {
    Watch(SignalGroup(s.core, k.reply), s.now + k.beforeSample + k.work)
  }

  /** One turn of a cleanup that still holds the child; a successful reap is the last thing it does. */
  function SettleOnce(s: Watch, until: nat, t: SettleTurn): WatchEnd {
    var guarded := s.now + t.beforeGuard;
    if guarded >= until then Done(s.(now := guarded))
    else
      var observed := ObserveLeader(s.core, t.leader);
      if observed.seen.leaderWaitable then Done(Watch(ReapLeader(observed, t.wait), guarded))
      else
        var now := guarded + t.beforeWait;
        Pending(Listened(Watch(observed, now), WaitQuantum(None, Some(until), now), t.received, t.slept, t.work))
  }

  function SettleLoop(s: Watch, until: nat, turns: seq<SettleTurn>): WatchEnd
    decreases |turns|
  {
    if turns == [] then Pending(s)
    else
      var once := SettleOnce(s, until, turns[0]);
      if once.Done? then once else SettleLoop(once.state, until, turns[1..])
  }

  function ConcludeManaged(p: Plan, s: Watch, f: Farewell): ManagedEnd
    requires s.core.signal.Some? && p.started <= s.now
  {
    var core := TransferLeader(s.core, f.reaperAlive);
    var cleanup := if s.core.owned.child then CleanupPartial([], true) else CleanupComplete;
    var evidence := EvidenceOf(core, s.now + f.work - p.started, RedirectedReport(Stdout), RedirectedReport(Stderr),
                               cleanup);
    Reported(ClassifyManaged(ChoosePrimary(core.seen, None, None), p.configured, evidence), evidence, s, core,
             DropOwned(core.owned, f.dropReply, f.dropAlive))
  }

  lemma {:induction false} WatchLoopForward(p: Plan, s: Watch, turns: seq<WatchTurn>)
    ensures WatchLoop(p, s, turns).state.now >= s.now
    decreases |turns|
  {
    if turns != [] {
      WatchLoopForward(p, WatchOnce(p, s, turns[0]).state, turns[1..]);
    }
  }

  lemma {:induction false} SettleLoopForward(s: Watch, until: nat, turns: seq<SettleTurn>)
    ensures SettleLoop(s, until, turns).state.core.signal == s.core.signal
    ensures SettleLoop(s, until, turns).state.now >= s.now
    decreases |turns|
  {
    if turns != [] {
      SettleLoopForward(SettleOnce(s, until, turns[0]).state, until, turns[1..]);
    }
  }

  function SettleUntil(s: Watch, w: Script): nat {
    CleanupDeadline(s.now + w.kill.beforeSample, w.lastInstant)
  }

  function SettleAfterKill(s: Watch, w: Script): (end: WatchEnd)
    ensures end.state.core.signal.Some? && end.state.now >= s.now
  {
    var until := SettleUntil(s, w);
    SettleLoopForward(KillWatched(s, w.kill), until, w.settle);
    SettleLoop(KillWatched(s, w.kill), until, w.settle)
  }

  /** One run of `supervise_managed`, and the drop of the owned child at its end. */
  function RunManaged(p: Plan, start: nat, w: Script): ManagedEnd
    requires p.started <= start
  {
    WatchLoopForward(p, Watch(NewCore(), start), w.watch);
    var watched := WatchLoop(p, Watch(NewCore(), start), w.watch);
    if watched.Pending? then Supervising(watched.state)
    else
      var settled := SettleAfterKill(watched.state, w);
      if settled.Pending? then Supervising(settled.state) else ConcludeManaged(p, settled.state, w.farewell)
  }

  // ---------------------------------------------------------------------------------------------
  // The imperative supervisor.

  ghost function WatchOf(owned: OwnedChild, seen: ObservationRecord, signal: Option<GroupSignalOutcome>,
                         status: Option<ExitStatus>, disposition: LeaderReapDisposition, now: nat): Watch
    reads owned, seen
  {
    Watch(CoreOf(owned, seen, signal, status, disposition), now)
  }

  method Listen(owned: OwnedChild, seen: ObservationRecord, reply: CancelReply)
    modifies owned`history, seen`cancelled
    ensures forall g, s, d :: (
              CoreOf(owned, seen, g, s, d) == SampleCancel(old(CoreOf(owned, seen, g, s, d)), reply.Heard()))
  {
    match reply {
      case Message | Disconnected => seen.cancelled := true;
      case Quiet =>
    }
    owned.history := Then(owned.history, SampledCancel(reply.Heard()));
  }

  method WatchChild(p: Plan, owned: OwnedChild, seen: ObservationRecord, start: nat, turns: seq<WatchTurn>)
    returns (done: bool, now: nat)
    modifies owned`history, seen
    ensures owned.child == old(owned.child)
    ensures var end := WatchLoop(p, old(WatchOf(owned, seen, None, None, Unreaped, start)), turns);
      done == end.Done? && end.state == WatchOf(owned, seen, None, None, Unreaped, now)
  {
    ghost var first := WatchOf(owned, seen, None, None, Unreaped, start);
    done, now := false, start;
    var i := 0;
    while i < |turns| && !done
      invariant 0 <= i <= |turns|
      invariant var s := WatchOf(owned, seen, None, None, Unreaped, now);
        WatchLoop(p, first, turns) == if done then Done(s) else WatchLoop(p, s, turns[i..])
      decreases |turns| - i
    {
      assert turns[i..][0] == turns[i] && turns[i..][1..] == turns[i + 1..];
      done, now := WatchTurnOnce(p, owned, seen, now, turns[i]);
      i := i + 1;
    }
  }

  method WatchTurnOnce(p: Plan, owned: OwnedChild, seen: ObservationRecord, start: nat, t: WatchTurn)
    returns (done: bool, now: nat)
    modifies owned`history, seen
    ensures owned.child == old(owned.child)
    ensures var once := WatchOnce(p, old(WatchOf(owned, seen, None, None, Unreaped, start)), t);
      done == once.Done? && once.state == WatchOf(owned, seen, None, None, Unreaped, now)
  {
    ghost var s := WatchOf(owned, seen, None, None, Unreaped, start);
    Observe(owned, seen, t.leader);
    now := start + t.beforeSample;
    SampleClockAndCancel(p, owned, seen, t.tried.Heard(), now);
    ghost var looked := WatchOf(owned, seen, None, None, Unreaped, now);
    assert looked == Looked(p, s, t);
    done := SettlementTriggered(seen.View(), false, false);
    if !done {
      now := now + t.beforeWait;
      var wait := WaitQuantum(p.deadline, None, now);
      Listen(owned, seen, t.received);
      now := now + Min(t.slept, wait) + t.work;
    }
  }

  method SettleChild(owned: OwnedChild, seen: ObservationRecord, ghost signal: Option<GroupSignalOutcome>, start: nat,
                     until: nat, turns: seq<SettleTurn>)
    returns (done: bool, now: nat, status: Option<ExitStatus>, disposition: LeaderReapDisposition)
    requires owned.child
    modifies owned, seen
    ensures var end := SettleLoop(old(WatchOf(owned, seen, signal, None, Unreaped, start)), until, turns);
      done == end.Done? && end.state == WatchOf(owned, seen, signal, status, disposition, now)
  {
    ghost var first := WatchOf(owned, seen, signal, None, Unreaped, start);
    done, now, status, disposition := false, start, None, Unreaped;
    var i := 0;
    while i < |turns| && !done
      invariant 0 <= i <= |turns|
      invariant !done ==> owned.child
      invariant var s := WatchOf(owned, seen, signal, status, disposition, now);
        SettleLoop(first, until, turns) == if done then Done(s) else SettleLoop(s, until, turns[i..])
      decreases |turns| - i
    {
      var t := turns[i];
      assert turns[i..][0] == t && turns[i..][1..] == turns[i + 1..];
      done, now, status, disposition := SettleTurnOnce(owned, seen, signal, status, disposition, now, until, t);
      i := i + 1;
    }
  }

  method SettleTurnOnce(owned: OwnedChild, seen: ObservationRecord, ghost signal: Option<GroupSignalOutcome>,
                        status: Option<ExitStatus>, disposition: LeaderReapDisposition, start: nat, until: nat,
                        t: SettleTurn)
    returns (done: bool, now: nat, newStatus: Option<ExitStatus>, newDisposition: LeaderReapDisposition)
    requires owned.child
    modifies owned, seen
    ensures var once := SettleOnce(old(WatchOf(owned, seen, signal, status, disposition, start)), until, t);
      done == once.Done? && once.state == WatchOf(owned, seen, signal, newStatus, newDisposition, now)
    ensures !done ==> owned.child
  {
    done, newStatus, newDisposition := true, status, disposition;
    now := start + t.beforeGuard;
    if now >= until {
      return;
    }
    Observe(owned, seen, t.leader);
    if seen.leaderWaitable {
      var reaped := owned.ReapWaitable(t.wait);
      match reaped {
        case Ok(value) =>
          newStatus := Some(value);
          newDisposition := Reaped;
        case Err(error) =>
          seen.reapFailures := seen.reapFailures + [ReapFailure(error)];
      }
      return;
    }
    now := now + t.beforeWait;
    var wait := WaitQuantum(None, Some(until), now);
    Listen(owned, seen, t.received);
    now := now + Min(t.slept, wait) + t.work;
    done := false;
  }

  method ReportManaged(p: Plan, owned: OwnedChild, seen: ObservationRecord, signal: GroupSignalOutcome,
                status: Option<ExitStatus>, reaped: LeaderReapDisposition, now: nat, f: Farewell)
    returns (result: RunResult, ghost end: ManagedEnd)
    requires p.started <= now
    modifies owned, seen
    ensures end == ConcludeManaged(p, old(WatchOf(owned, seen, Some(signal), status, reaped, now)), f)
    ensures end.Reported? && end.result == result
  {
    ghost var last := WatchOf(owned, seen, Some(signal), status, reaped, now);
    var disposition := reaped;
    var leaderUnsettled := owned.HasChild();
    if leaderUnsettled {
      var failure := owned.HandoffToBackgroundReaper(f.reaperAlive);
      match failure {
        case None => disposition := BackgroundReaper;
        case Some(evidence) => seen.reapFailures := seen.reapFailures + [evidence];
      }
    }
    ghost var core := CoreOf(owned, seen, Some(signal), status, disposition);
    assert core == TransferLeader(last.core, f.reaperAlive);
    var cleanup := if leaderUnsettled then CleanupPartial([], true) else CleanupComplete;
    var primary := ChoosePrimary(seen.View(), None, None);
    var elapsed := now + f.work - p.started;
    var evidence := LifecycleEvidence(status, Some(elapsed), signal, LeaderReapOutcome(disposition, seen.reapFailures),
                                      RedirectedReport(Stdout), RedirectedReport(Stderr), cleanup);
    result := ClassifyManaged(primary, p.configured, evidence);
    owned.Drop(f.dropReply, f.dropAlive);
    end := Reported(result, evidence, last, core, owned.View());
  }

  /** What the supervisor sends on its result channel; nothing while it is still supervising. */
  function MessageOf(end: ManagedEnd): Option<RunResult> {
    match end
    case Supervising(_) => None
    case Reported(result, _, _, _, _) => Some(result)
  }

  method KillAndSettle(owned: OwnedChild, seen: ObservationRecord, start: nat, w: Script)
    returns (done: bool, now: nat, signal: GroupSignalOutcome, status: Option<ExitStatus>,
             disposition: LeaderReapDisposition)
    requires owned.child
    modifies owned, seen
    ensures var end := SettleAfterKill(old(WatchOf(owned, seen, None, None, Unreaped, start)), w);
      done == end.Done? && end.state == WatchOf(owned, seen, Some(signal), status, disposition, now)
  {
    ghost var watched := WatchOf(owned, seen, None, None, Unreaped, start);
    now := start + w.kill.beforeSample;
    var until := CleanupDeadline(now, w.lastInstant);
    owned.KillGroup(w.kill.reply);
    signal := SignalOutcome(w.kill.reply);
    now := now + w.kill.work;
    assert WatchOf(owned, seen, Some(signal), None, Unreaped, now) == KillWatched(watched, w.kill);
    done, now, status, disposition := SettleChild(owned, seen, Some(signal), now, until, w.settle);
  }

  method SuperviseManaged(p: Plan, start: nat, w: Script) returns (outcome: Option<RunResult>, ghost end: ManagedEnd)
    requires p.started <= start
    ensures outcome == MessageOf(RunManaged(p, start, w))
    ensures end == RunManaged(p, start, w)
  {
    var owned := new OwnedChild();
    var seen := new ObservationRecord();
    WatchLoopForward(p, Watch(NewCore(), start), w.watch);
    var done, now := WatchChild(p, owned, seen, start, w.watch);
    if !done {
      return None, Supervising(WatchOf(owned, seen, None, None, Unreaped, now));
    }
    var signal, status, disposition;
    done, now, signal, status, disposition := KillAndSettle(owned, seen, now, w);
    if !done {
      return None, Supervising(WatchOf(owned, seen, Some(signal), status, disposition, now));
    }
    var result;
    result, end := ReportManaged(p, owned, seen, signal, status, disposition, now, w.farewell);
    outcome := Some(result);
  }
}
