/** The captured, blocking supervisor (`execute` in supervisor.rs). */
module Executor {
  import opened Base
  import opened Outcome
  import opened Policy
  import opened Capture
  import opened Lifecycle
  import opened Classification

  // ---------------------------------------------------------------------------------------------
  // Everything the environment answers during one run.

  datatype PollReply = Ready(out: bool, err: bool) | PollInterrupted | PollFailure(error: KernelError)

  /**
   * One turn of the supervision loop. Time passes before the deadline is sampled, before the wait is
   * computed, while `poll` sleeps (never longer than it was asked to) and while it and the pumps work;
   * oversleeping counts as work.
   */
  datatype MainTurn = MainTurn(
    leader: Observation,
    cancelled: bool,
    beforeSample: nat,
    beforeWait: nat,
    poll: PollReply,
    slept: nat,
    work: nat)

  datatype CleanTurn = CleanTurn(
    beforeGuard: nat,
    cancelled: bool,
    beforeSample: nat,
    leader: Observation,
    wait: WaitReply,
    beforeWait: nat,
    poll: PollReply,
    slept: nat,
    work: nat)

  /** An absent pipe is a redirected stream; `setNonblocking` is the answer of the `fcntl` calls. */
  datatype PipeSetup = PipeSetup(pipe: Option<seq<Read>>, setNonblocking: Option<KernelError>)

  datatype Launch = Launch(
    reaper: Option<KernelError>,
    started: nat,
    lastInstant: nat,
    spawn: Option<KernelError>,
    stdout: PipeSetup,
    stderr: PipeSetup,
    work: nat)

  datatype Kill = Kill(beforeSample: nat, reply: KillReply, work: nat)

  datatype Farewell = Farewell(reaperAlive: bool, work: nat, dropReply: KillReply, dropAlive: bool)

  datatype World = World(
    launch: Launch,
    main: seq<MainTurn>,
    kill: Kill,
    clean: seq<CleanTurn>,
    farewell: Farewell)

  datatype Command = Command(execution: ExecutionPolicy, stdoutCapture: CapturePolicy, stderrCapture: CapturePolicy)

  // ---------------------------------------------------------------------------------------------
  // The run as a function of those answers.

  datatype Exec = Exec(core: Core, out: Stream, err: Stream, now: nat)

  datatype Plan = Plan(started: nat, deadline: Option<nat>, configured: Option<nat>)

  /** A loop has run out of answers, or has been left. */
  datatype LoopEnd = Ongoing(state: Exec) | Left(state: Exec)

  datatype RunEnd =
    | Refused(error: Error)
    | InProgress(state: Exec)
    | Finished(result: RunResult, evidence: LifecycleEvidence, last: Exec, core: Core, dropped: Owned)

  predicate DeadlinePassed(deadline: Option<nat>, now: nat) {
    deadline.Some? && now >= deadline.value
  }

  function WaitQuantum(deadline: Option<nat>, cleanup: Option<nat>, now: nat): nat {
    var untilDeadline :=
      if deadline.Some? then Min(SaturatingSub(deadline.value, now), EVENT_QUANTUM) else EVENT_QUANTUM;
    if cleanup.Some? then Min(untilDeadline, SaturatingSub(cleanup.value, now)) else untilDeadline
  }

  /** With no representable cleanup deadline there is no cleanup time at all. */
  function CleanupDeadline(now: nat, lastInstant: nat): nat {
    if now + CLEANUP_BUDGET <= lastInstant then now + CLEANUP_BUDGET else now
  }

  /** `poll_streams`: only open pipes are polled, and with none open the supervisor just sleeps. */
  function PollStreams(outOpen: bool, errOpen: bool, reply: PollReply): PollReply {
    if !outOpen && !errOpen then Ready(false, false)
    else if reply.Ready? then Ready(outOpen && reply.out, errOpen && reply.err)
    else reply
  }

  function PollAndPump(s: Exec, wait: nat, reply: PollReply, slept: nat, work: nat): Exec {
    var later := s.(now := s.now + Min(slept, wait) + work);
    match PollStreams(s.out.pipe.Some?, s.err.pipe.Some?, reply)
    case Ready(outReady, errReady) =>
      var (out, err) := PumpFair(s.out, s.err, outReady, errReady);
      later.(out := out, err := err)
    case PollInterrupted => later
    case PollFailure(error) => later.(core := PollFailed(s.core, error))
  }

  /** Leader, cancellation and deadline, in the order the supervision loop looks at them. */
  function Sampled(p: Plan, s: Exec, t: MainTurn): Exec {
    var now := s.now + t.beforeSample;
    var core := SampleDeadline(SampleCancel(ObserveLeader(s.core, t.leader), t.cancelled),
                               DeadlinePassed(p.deadline, now));
    s.(core := core, now := now)
  }

  predicate Triggered(s: Exec) {
    SettlementTriggered(s.core.seen, s.out.overflow.Some? || s.err.overflow.Some?,
                        s.out.failure.Some? || s.err.failure.Some?)
  }

  function Awaited(p: Plan, s: Exec, t: MainTurn): Exec {
    var now := s.now + t.beforeWait;
    PollAndPump(s.(now := now), WaitQuantum(p.deadline, None, now), t.poll, t.slept, t.work)
  }

  function MainOnce(p: Plan, s: Exec, t: MainTurn): LoopEnd {
    var sampled := Sampled(p, s, t);
    if Triggered(sampled) then Left(sampled) else Ongoing(Awaited(p, sampled, t))
  }

  function MainLoop(p: Plan, s: Exec, turns: seq<MainTurn>): LoopEnd
    decreases |turns|
  {
    if turns == [] then Ongoing(s)
    else
      var once := MainOnce(p, s, turns[0]);
      if once.Left? then once else MainLoop(p, once.state, turns[1..])
  }

  function KillGroup(s: Exec, k: Kill): Exec {
    s.(core := SignalGroup(s.core, k.reply), now := s.now + k.beforeSample + k.work)
  }

  /** Cleanup looks at cancellation and the deadline before it looks at the leader. */
  function ResampledCore(p: Plan, k: Core, now: nat, t: CleanTurn): Core {
    ObserveLeader(SampleDeadline(SampleCancel(k, t.cancelled), DeadlinePassed(p.deadline, now)), t.leader)
  }

  function Resampled(p: Plan, s: Exec, t: CleanTurn): Exec {
    var now := s.now + t.beforeSample;
    s.(core := ResampledCore(p, s.core, now, t), now := now)
  }

  predicate MayReap(k: Core) {
    k.seen.leaderWaitable && k.owned.child
  }

  function ReapIfWaitable(k: Core, reply: WaitReply): Core {
    if MayReap(k) then ReapLeader(k, reply) else k
  }

  predicate Settled(s: Exec) {
    !s.core.owned.child && s.out.Terminal() && s.err.Terminal()
  }

  function Drained(s: Exec, until: nat, t: CleanTurn): Exec {
    var now := s.now + t.beforeWait;
    PollAndPump(s.(now := now), WaitQuantum(None, Some(until), now), t.poll, t.slept, t.work)
  }

  /** The guard, the samples and the reap of one cleanup turn. */
  function ReapPhase(p: Plan, s: Exec, until: nat, t: CleanTurn): LoopEnd {
    var guarded := s.(now := s.now + t.beforeGuard);
    if guarded.now >= until then Left(guarded)
    else
      var sampled := Resampled(p, guarded, t);
      var reaped := sampled.(core := ReapIfWaitable(sampled.core, t.wait));
      if (MayReap(sampled.core) && t.wait.WaitFailed?) || Settled(reaped) then Left(reaped) else Ongoing(reaped)
  }

  function CleanOnce(p: Plan, s: Exec, until: nat, t: CleanTurn): LoopEnd {
    var phase := ReapPhase(p, s, until, t);
    if phase.Left? then phase else Ongoing(Drained(phase.state, until, t))
  }

  function CleanLoop(p: Plan, s: Exec, until: nat, turns: seq<CleanTurn>): LoopEnd
    decreases |turns|
  {
    if turns == [] then Ongoing(s)
    else
      var once := CleanOnce(p, s, until, turns[0]);
      if once.Left? then once else CleanLoop(p, once.state, until, turns[1..])
  }

  function CleanupOf(leaderUnsettled: bool, outTerminal: bool, errTerminal: bool): CleanupOutcome {
    var unfinished := (if outTerminal then [] else [Stdout]) + (if errTerminal then [] else [Stderr]);
    if leaderUnsettled || unfinished != [] then CleanupPartial(unfinished, leaderUnsettled) else CleanupComplete
  }

  function EvidenceOf(k: Core, elapsed: nat, out: CaptureReport, err: CaptureReport, cleanup: CleanupOutcome)
    : LifecycleEvidence
    requires k.signal.Some?
  {
    LifecycleEvidence(k.status, Some(elapsed), k.signal.value,
                      LeaderReapOutcome(k.disposition, k.seen.reapFailures), out, err, cleanup)
  }

  function Conclude(p: Plan, s: Exec, f: Farewell): RunEnd
    requires s.core.signal.Some?
    requires p.started <= s.now
  {
    var core := TransferLeader(s.core, f.reaperAlive);
    var cleanup := CleanupOf(s.core.owned.child, s.out.Terminal(), s.err.Terminal());
    var primary := ChoosePrimary(core.seen, s.out.overflow, s.err.overflow);
    var elapsed := s.now + f.work - p.started;
    var evidence := EvidenceOf(core, elapsed, Report(s.out), Report(s.err), cleanup);
    Finished(Classify(primary, p.configured, evidence), evidence, s, core,
             DropOwned(core.owned, f.dropReply, f.dropAlive))
  }

  function OpenStream(name: StreamName, setup: PipeSetup, policy: CapturePolicy): Stream {
    MakeNonblocking(NewStream(name, setup.pipe, policy), setup.setNonblocking)
  }

  function FirstState(c: Command, l: Launch): Exec {
    Exec(NewCore(), OpenStream(Stdout, l.stdout, c.stdoutCapture), OpenStream(Stderr, l.stderr, c.stderrCapture),
         l.started + l.work)
  }

  /** Why a run may end before a process exists, in the order the source checks. */
  function Refusal(c: Command, l: Launch): Option<Error> {
    if l.reaper.Some? then Some(ReaperStartFailed(l.reaper.value))
    else if c.execution.DeadlineFrom(l.started, l.lastInstant).Err? then
      Some(c.execution.DeadlineFrom(l.started, l.lastInstant).error)
    else if l.spawn.Some? then Some(SpawnFailed(l.spawn.value))
    else None
  }

  function PlanOf(c: Command, l: Launch): Plan
    requires Refusal(c, l).None?
  {
    Plan(l.started, c.execution.DeadlineFrom(l.started, l.lastInstant).value, c.execution.Duration())
  }

  lemma {:induction false} MainLoopForward(p: Plan, s: Exec, turns: seq<MainTurn>)
    ensures MainLoop(p, s, turns).state.core.signal == s.core.signal
    ensures MainLoop(p, s, turns).state.now >= s.now
    decreases |turns|
  {
    if turns != [] {
      MainLoopForward(p, MainOnce(p, s, turns[0]).state, turns[1..]);
    }
  }

  lemma {:induction false} CleanLoopForward(p: Plan, s: Exec, until: nat, turns: seq<CleanTurn>)
    ensures CleanLoop(p, s, until, turns).state.core.signal == s.core.signal
    ensures CleanLoop(p, s, until, turns).state.now >= s.now
    decreases |turns|
  {
    if turns != [] {
      CleanLoopForward(p, CleanOnce(p, s, until, turns[0]).state, until, turns[1..]);
    }
  }

  /** The cleanup deadline, read off the clock just before the group signal. */
  function CleanupUntil(s: Exec, w: World): nat {
    CleanupDeadline(s.now + w.kill.beforeSample, w.launch.lastInstant)
  }

  /** The group signal and the cleanup loop, under one cleanup deadline. */
  function Cleanup(p: Plan, s: Exec, w: World): (end: LoopEnd)
    ensures end.state.core.signal.Some? && end.state.now >= s.now
  {
    var until := CleanupUntil(s, w);
    CleanLoopForward(p, KillGroup(s, w.kill), until, w.clean);
    CleanLoop(p, KillGroup(s, w.kill), until, w.clean)
  }

  /** Everything after the process has been spawned. */
  function RunFrom(p: Plan, s: Exec, w: World): RunEnd
    requires p.started <= s.now
  {
    MainLoopForward(p, s, w.main);
    var main := MainLoop(p, s, w.main);
    if main.Ongoing? then InProgress(main.state)
    else
      var clean := Cleanup(p, main.state, w);
      if clean.Ongoing? then InProgress(clean.state) else Conclude(p, clean.state, w.farewell)
  }

  /** One run of `execute`; it is in progress when the answers run out first. */
  function Run(c: Command, w: World): RunEnd {
    if Refusal(c, w.launch).Some? then Refused(Refusal(c, w.launch).value)
    else RunFrom(PlanOf(c, w.launch), FirstState(c, w.launch), w)
  }

  // ---------------------------------------------------------------------------------------------
  // The imperative supervisor.

  ghost function ExecOf(owned: OwnedChild, seen: ObservationRecord, out: CaptureStream, err: CaptureStream,
                        signal: Option<GroupSignalOutcome>, status: Option<ExitStatus>,
                        disposition: LeaderReapDisposition, now: nat): Exec
    reads owned, seen, out, err
  {
    Exec(CoreOf(owned, seen, signal, status, disposition), out.View(), err.View(), now)
  }

  method PollThenPump(owned: OwnedChild, seen: ObservationRecord, out: CaptureStream, err: CaptureStream,
                      ghost signal: Option<GroupSignalOutcome>, ghost status: Option<ExitStatus>,
                      ghost disposition: LeaderReapDisposition, now: nat, wait: nat, reply: PollReply,
                      slept: nat, work: nat, outFirst: bool)
    returns (later: nat, nextFirst: bool)
    requires out != err
    modifies seen, out, err
    ensures ExecOf(owned, seen, out, err, signal, status, disposition, later)
         == PollAndPump(old(ExecOf(owned, seen, out, err, signal, status, disposition, now)), wait, reply, slept, work)
    ensures nextFirst == (outFirst != PollStreams(old(out.pipe).Some?, old(err.pipe).Some?, reply).Ready?)
  {
    ghost var s := ExecOf(owned, seen, out, err, signal, status, disposition, now);
    later, nextFirst := now + Min(slept, wait) + work, outFirst;
    var ready := PollStreams(out.pipe.Some?, err.pipe.Some?, reply);
    assert ready == PollStreams(s.out.pipe.Some?, s.err.pipe.Some?, reply);
    match ready {
      case Ready(outReady, errReady) =>
        nextFirst := PumpBothFairly(out, err, outReady, errReady, outFirst);
        assert (out.View(), err.View()) == PumpFair(s.out, s.err, outReady, errReady);
      case PollInterrupted =>
      case PollFailure(error) =>
        seen.observeError := KeepFirst(seen.observeError, error);
        assert CoreOf(owned, seen, signal, status, disposition) == PollFailed(s.core, error);
    }
  }

  method SampleClockAndCancel(p: Plan, owned: OwnedChild, seen: ObservationRecord, cancelled: bool, now: nat)
    modifies owned`history, seen
    ensures forall g, s, d :: (
              CoreOf(owned, seen, g, s, d)
           == SampleDeadline(SampleCancel(old(CoreOf(owned, seen, g, s, d)), cancelled),
                             DeadlinePassed(p.deadline, now)))
  {
    seen.cancelled := seen.cancelled || cancelled;
    owned.history := Then(owned.history, SampledCancel(cancelled));
    seen.deadlineElapsed := DeadlinePassed(p.deadline, now);
    owned.history := Then(owned.history, SampledDeadline(seen.deadlineElapsed));
  }

  method SuperviseTurn(p: Plan, owned: OwnedChild, seen: ObservationRecord, out: CaptureStream, err: CaptureStream,
                       start: nat, t: MainTurn, outFirst: bool)
    returns (settled: bool, now: nat, nextFirst: bool)
    requires out != err
    modifies owned`history, seen, out, err
    ensures var once := MainOnce(p, old(ExecOf(owned, seen, out, err, None, None, Unreaped, start)), t);
      settled == once.Left? && once.state == ExecOf(owned, seen, out, err, None, None, Unreaped, now)
  {
    nextFirst := outFirst;
    Observe(owned, seen, t.leader);
    now := start + t.beforeSample;
    SampleClockAndCancel(p, owned, seen, t.cancelled, now);
    settled := SettlementTriggered(seen.View(), out.overflow.Some? || err.overflow.Some?,
                                   out.HasFailed() || err.HasFailed());
    if !settled {
      now := now + t.beforeWait;
      var wait := WaitQuantum(p.deadline, None, now);
      now, nextFirst := PollThenPump(owned, seen, out, err, None, None, Unreaped, now, wait, t.poll, t.slept, t.work,
                                     outFirst);
    }
  }

  method SuperviseLoop(p: Plan, owned: OwnedChild, seen: ObservationRecord, out: CaptureStream, err: CaptureStream,
                       start: nat, turns: seq<MainTurn>)
    returns (settled: bool, now: nat, outFirst: bool)
    requires out != err
    modifies owned`history, seen, out, err
    ensures var end := MainLoop(p, old(ExecOf(owned, seen, out, err, None, None, Unreaped, start)), turns);
      settled == end.Left? && end.state == ExecOf(owned, seen, out, err, None, None, Unreaped, now)
  {
    ghost var first := ExecOf(owned, seen, out, err, None, None, Unreaped, start);
    settled, now, outFirst := false, start, true;
    var i := 0;
    while i < |turns| && !settled
      invariant 0 <= i <= |turns|
      invariant var s := ExecOf(owned, seen, out, err, None, None, Unreaped, now);
        MainLoop(p, first, turns) == if settled then Left(s) else MainLoop(p, s, turns[i..])
      decreases |turns| - i
    {
      assert turns[i..][0] == turns[i] && turns[i..][1..] == turns[i + 1..];
      settled, now, outFirst := SuperviseTurn(p, owned, seen, out, err, now, turns[i], outFirst);
      i := i + 1;
    }
  }

  /** The sampling and reaping half of one cleanup turn; `failed` leaves the loop. */
  method ResampleAndReap(p: Plan, owned: OwnedChild, seen: ObservationRecord, ghost signal: Option<GroupSignalOutcome>,
                         status: Option<ExitStatus>, disposition: LeaderReapDisposition, now: nat, t: CleanTurn)
    returns (failed: bool, newStatus: Option<ExitStatus>, newDisposition: LeaderReapDisposition)
    modifies owned, seen
    ensures var k := ResampledCore(p, old(CoreOf(owned, seen, signal, status, disposition)), now, t);
      && failed == (MayReap(k) && t.wait.WaitFailed?)
      && CoreOf(owned, seen, signal, newStatus, newDisposition) == ReapIfWaitable(k, t.wait)
  {
    ghost var first := CoreOf(owned, seen, signal, status, disposition);
    SampleClockAndCancel(p, owned, seen, t.cancelled, now);
    Observe(owned, seen, t.leader);
    ghost var k := CoreOf(owned, seen, signal, status, disposition);
    assert k == ResampledCore(p, first, now, t);
    failed, newStatus, newDisposition := false, status, disposition;
    if seen.leaderWaitable && owned.HasChild() {
      var reaped := owned.ReapWaitable(t.wait);
      match reaped {
        case Ok(value) =>
          newStatus := Some(value);
          newDisposition := Reaped;
        case Err(error) =>
          seen.reapFailures := seen.reapFailures + [ReapFailure(error)];
          failed := true;
      }
    }
  }

  method ReapTurn(p: Plan, owned: OwnedChild, seen: ObservationRecord, out: CaptureStream, err: CaptureStream,
                  ghost signal: Option<GroupSignalOutcome>, status: Option<ExitStatus>,
                  disposition: LeaderReapDisposition, start: nat, until: nat, t: CleanTurn)
    returns (over: bool, now: nat, newStatus: Option<ExitStatus>, newDisposition: LeaderReapDisposition)
    modifies owned, seen
    ensures var phase := ReapPhase(p, old(ExecOf(owned, seen, out, err, signal, status, disposition, start)), until, t);
      over == phase.Left? && phase.state == ExecOf(owned, seen, out, err, signal, newStatus, newDisposition, now)
  {
    newStatus, newDisposition := status, disposition;
    now := start + t.beforeGuard;
    if now >= until {
      over := true;
      return;
    }
    now := now + t.beforeSample;
    over, newStatus, newDisposition := ResampleAndReap(p, owned, seen, signal, status, disposition, now, t);
    over := over || (!owned.HasChild() && out.IsTerminal() && err.IsTerminal());
  }

  method CleanupTurn(p: Plan, owned: OwnedChild, seen: ObservationRecord, out: CaptureStream, err: CaptureStream,
                     ghost signal: Option<GroupSignalOutcome>, status: Option<ExitStatus>,
                     disposition: LeaderReapDisposition, start: nat, outFirst: bool, until: nat, t: CleanTurn)
    returns (over: bool, now: nat, newStatus: Option<ExitStatus>, newDisposition: LeaderReapDisposition,
             nextFirst: bool)
    requires out != err
    modifies owned, seen, out, err
    ensures var once := CleanOnce(p, old(ExecOf(owned, seen, out, err, signal, status, disposition, start)), until, t);
      over == once.Left? && once.state == ExecOf(owned, seen, out, err, signal, newStatus, newDisposition, now)
  {
    nextFirst := outFirst;
    over, now, newStatus, newDisposition :=
      ReapTurn(p, owned, seen, out, err, signal, status, disposition, start, until, t);
    if !over {
      now := now + t.beforeWait;
      var wait := WaitQuantum(None, Some(until), now);
      now, nextFirst := PollThenPump(owned, seen, out, err, signal, newStatus, newDisposition, now, wait, t.poll,
                                     t.slept, t.work, outFirst);
    }
  }

  method CleanupLoop(p: Plan, owned: OwnedChild, seen: ObservationRecord, out: CaptureStream, err: CaptureStream,
                     ghost signal: Option<GroupSignalOutcome>, start: nat, outFirst: bool, until: nat,
                     turns: seq<CleanTurn>)
    returns (over: bool, now: nat, status: Option<ExitStatus>, disposition: LeaderReapDisposition)
    requires out != err
    modifies owned, seen, out, err
    ensures var end := CleanLoop(p, old(ExecOf(owned, seen, out, err, signal, None, Unreaped, start)), until, turns);
      over == end.Left? && end.state == ExecOf(owned, seen, out, err, signal, status, disposition, now)
  {
    ghost var first := ExecOf(owned, seen, out, err, signal, None, Unreaped, start);
    over, now, status, disposition := false, start, None, Unreaped;
    var stdoutFirst := outFirst;
    var i := 0;
    while i < |turns| && !over
      invariant 0 <= i <= |turns|
      invariant var s := ExecOf(owned, seen, out, err, signal, status, disposition, now);
        CleanLoop(p, first, until, turns) == if over then Left(s) else CleanLoop(p, s, until, turns[i..])
      decreases |turns| - i
    {
      assert turns[i..][0] == turns[i] && turns[i..][1..] == turns[i + 1..];
      over, now, status, disposition, stdoutFirst :=
        CleanupTurn(p, owned, seen, out, err, signal, status, disposition, now, stdoutFirst, until, turns[i]);
      i := i + 1;
    }
  }

  /** Handoff, evidence, classification and the final drop of the owned child. */
  method Settle(p: Plan, owned: OwnedChild, seen: ObservationRecord, out: CaptureStream, err: CaptureStream,
                signal: GroupSignalOutcome, status: Option<ExitStatus>, reaped: LeaderReapDisposition, now: nat,
                f: Farewell)
    returns (result: RunResult, ghost end: RunEnd)
    requires p.started <= now
    modifies owned, seen
    ensures end == Conclude(p, old(ExecOf(owned, seen, out, err, Some(signal), status, reaped, now)), f)
    ensures end.Finished? && end.result == result
  {
    ghost var last := ExecOf(owned, seen, out, err, Some(signal), status, reaped, now);
    var disposition := reaped;
    var leaderUnsettled := owned.HasChild();
    if leaderUnsettled {
      var failure := owned.HandoffToBackgroundReaper(f.reaperAlive);
      match failure {
        case None => disposition := BackgroundReaper;
        case Some(evidence) => seen.reapFailures := seen.reapFailures + [evidence];
      }
    }
    ghost var core := CoreOf(owned, seen, Some(signal), status, disposition);
    assert core == TransferLeader(last.core, f.reaperAlive);
    var cleanup := CleanupOf(leaderUnsettled, out.IsTerminal(), err.IsTerminal());
    var primary := ChoosePrimary(seen.View(), out.overflow, err.overflow);
    var elapsed := now + f.work - p.started;
    var evidence := LifecycleEvidence(status, Some(elapsed), signal, LeaderReapOutcome(disposition, seen.reapFailures),
                                      out.IntoReport(), err.IntoReport(), cleanup);
    result := Classify(primary, p.configured, evidence);
    owned.Drop(f.dropReply, f.dropAlive);
    end := Finished(result, evidence, last, core, owned.View());
  }

  /** What the caller of `execute` receives; nothing while the run is in progress. */
  function Returned(end: RunEnd): Option<RunResult> {
    match end
    case Refused(error) => Some(Err(error))
    case InProgress(_) => None
    case Finished(result, _, _, _, _) => Some(result)
  }

  method KillAndClean(p: Plan, owned: OwnedChild, seen: ObservationRecord, out: CaptureStream, err: CaptureStream,
                      start: nat, outFirst: bool, w: World)
    returns (over: bool, now: nat, signal: GroupSignalOutcome, status: Option<ExitStatus>,
             disposition: LeaderReapDisposition)
    requires out != err
    modifies owned, seen, out, err
    ensures var end := Cleanup(p, old(ExecOf(owned, seen, out, err, None, None, Unreaped, start)), w);
      over == end.Left? && end.state == ExecOf(owned, seen, out, err, Some(signal), status, disposition, now)
  {
    ghost var left := ExecOf(owned, seen, out, err, None, None, Unreaped, start);
    now := start + w.kill.beforeSample;
    var until := CleanupDeadline(now, w.launch.lastInstant);
    owned.KillGroup(w.kill.reply);
    signal := SignalOutcome(w.kill.reply);
    now := now + w.kill.work;
    assert ExecOf(owned, seen, out, err, Some(signal), None, Unreaped, now) == KillGroup(left, w.kill);
    over, now, status, disposition :=
      CleanupLoop(p, owned, seen, out, err, Some(signal), now, outFirst, until, w.clean);
  }

  method Supervise(p: Plan, owned: OwnedChild, seen: ObservationRecord, out: CaptureStream, err: CaptureStream,
                   start: nat, w: World)
    returns (outcome: Option<RunResult>, ghost end: RunEnd)
    requires out != err && p.started <= start
    modifies owned, seen, out, err
    ensures end == RunFrom(p, old(ExecOf(owned, seen, out, err, None, None, Unreaped, start)), w)
    ensures outcome == Returned(end)
  {
    ghost var first := ExecOf(owned, seen, out, err, None, None, Unreaped, start);
    MainLoopForward(p, first, w.main);
    var settled, now, outFirst := SuperviseLoop(p, owned, seen, out, err, start, w.main);
    if !settled {
      return None, InProgress(ExecOf(owned, seen, out, err, None, None, Unreaped, now));
    }
    var over, signal, status, disposition;
    over, now, signal, status, disposition := KillAndClean(p, owned, seen, out, err, now, outFirst, w);
    if !over {
      return None, InProgress(ExecOf(owned, seen, out, err, Some(signal), status, disposition, now));
    }
    var result;
    result, end := Settle(p, owned, seen, out, err, signal, status, disposition, now, w.farewell);
    outcome := Some(result);
  }

  method Execute(c: Command, w: World) returns (outcome: Option<RunResult>, ghost end: RunEnd)
    ensures outcome == Returned(Run(c, w))
    ensures end == Run(c, w)
  {
    var l := w.launch;
    end := Run(c, w);
    if l.reaper.Some? {
      return Some(Err(ReaperStartFailed(l.reaper.value))), end;
    }
    var deadline := c.execution.DeadlineFrom(l.started, l.lastInstant);
    if deadline.Err? {
      return Some(Err(deadline.error)), end;
    }
    if l.spawn.Some? {
      return Some(Err(SpawnFailed(l.spawn.value))), end;
    }
    var p := Plan(l.started, deadline.value, c.execution.Duration());
    var owned, seen, out, err := Launched(c, l);
    outcome, end := Supervise(p, owned, seen, out, err, l.started + l.work, w);
  }

  /** The objects of a run whose child has just been spawned. */
  method Launched(c: Command, l: Launch)
    returns (owned: OwnedChild, seen: ObservationRecord, out: CaptureStream, err: CaptureStream)
    ensures fresh(owned) && fresh(seen) && fresh(out) && fresh(err) && out != err
    ensures ExecOf(owned, seen, out, err, None, None, Unreaped, l.started + l.work) == FirstState(c, l)
  {
    owned := new OwnedChild();
    seen := new ObservationRecord();
    out := new CaptureStream(Stdout, l.stdout.pipe, c.stdoutCapture);
    err := new CaptureStream(Stderr, l.stderr.pipe, c.stderrCapture);
    out.SetNonblocking(l.stdout.setNonblocking);
    err.SetNonblocking(l.stderr.setNonblocking);
  }
}
