/** What every run of the captured supervisor guarantees. */
module ExecutorTheorems {
  import opened Base
  import opened Outcome
  import opened Policy
  import opened Capture
  import opened Lifecycle
  import opened Classification
  import opened Executor

  // ---------------------------------------------------------------------------------------------
  // The run invariant.

  /** Streams opened as `o` describes, in whatever state the run has brought them to. */
  ghost predicate StreamsSound(o: Exec, s: Exec) {
    && Faithful(s.out) && SameShape(o.out, s.out) && Replayed(o.out, s.out)
    && Faithful(s.err) && SameShape(o.err, s.err) && Replayed(o.err, s.err)
  }

  /** The deadline observation is exactly "some sample saw the deadline", and samples never lie. */
  ghost predicate Honest(deadline: Option<nat>, k: Core, now: nat) {
    && (k.seen.deadlineElapsed <==> Has(k.owned.history, DeadlineSeen))
    && (k.seen.deadlineElapsed ==> DeadlinePassed(deadline, now))
  }

  ghost predicate Clocked(p: Plan, s: Exec) {
    p.started <= s.now && Honest(p.deadline, s.core, s.now)
  }

  ghost predicate MainSound(o: Exec, p: Plan, s: Exec) {
    Watching(s.core) && StreamsSound(o, s) && Clocked(p, s)
  }

  ghost predicate CleanSound(o: Exec, p: Plan, s: Exec) {
    Cleaning(s.core) && StreamsSound(o, s) && Clocked(p, s)
  }

  lemma FirstStateSound(c: Command, l: Launch)
    requires Refusal(c, l).None?
    ensures MainSound(FirstState(c, l), PlanOf(c, l), FirstState(c, l))
  {
    NewStreamFaithful(Stdout, l.stdout.pipe, c.stdoutCapture, l.stdout.setNonblocking);
    NewStreamFaithful(Stderr, l.stderr.pipe, c.stderrCapture, l.stderr.setNonblocking);
  }

  lemma PumpKeepsStream(base: Stream, s: Stream)
    requires Faithful(s) && SameShape(base, s) && Replayed(base, s)
    ensures var t := Pump(s, CHUNKS_PER_STREAM_TURN);
      Faithful(t) && SameShape(base, t) && Replayed(base, t)
  {
    PumpFaithful(s, CHUNKS_PER_STREAM_TURN);
    PumpReplays(base, s, CHUNKS_PER_STREAM_TURN);
  }

  lemma LaterKeeps(o: Exec, p: Plan, s: Exec, now: nat)
    requires s.now <= now
    ensures MainSound(o, p, s) ==> MainSound(o, p, s.(now := now))
    ensures CleanSound(o, p, s) ==> CleanSound(o, p, s.(now := now))
  {
  }

  lemma HonestSamples(deadline: Option<nat>, k: Core, before: nat, cancelled: bool, leader: Observation, now: nat)
    requires Honest(deadline, k, before) && before <= now
    ensures Honest(deadline, ObserveLeader(k, leader), now)
    ensures Honest(deadline, SampleCancel(k, cancelled), now)
    ensures Honest(deadline, SampleDeadline(k, DeadlinePassed(deadline, now)), now)
  {
  }

  lemma PollKeepsStreams(o: Exec, s: Exec, now: nat, wait: nat, reply: PollReply, slept: nat, work: nat)
    requires StreamsSound(o, s)
    ensures StreamsSound(o, PollAndPump(s.(now := now), wait, reply, slept, work))
  {
    PumpKeepsStream(o.out, s.out);
    PumpKeepsStream(o.err, s.err);
    var t := PollAndPump(s.(now := now), wait, reply, slept, work);
    assert t.out == s.out || t.out == Pump(s.out, CHUNKS_PER_STREAM_TURN);
    assert t.err == s.err || t.err == Pump(s.err, CHUNKS_PER_STREAM_TURN);
  }

  lemma PollKeepsCore(p: Plan, s: Exec, now: nat, wait: nat, reply: PollReply, slept: nat, work: nat)
    requires Clocked(p, s) && s.now <= now
    ensures var t := PollAndPump(s.(now := now), wait, reply, slept, work);
      && Clocked(p, t)
      && (Watching(s.core) ==> Watching(t.core))
      && (Cleaning(s.core) ==> Cleaning(t.core))
      && t.core.seen.reapFailures == s.core.seen.reapFailures
  {
    if reply.PollFailure? {
      PollFailedKeeps(s.core, reply.error);
    }
  }

  lemma SampledKeeps(o: Exec, p: Plan, s: Exec, t: MainTurn)
    requires MainSound(o, p, s)
    ensures MainSound(o, p, Sampled(p, s, t))
  {
    var now := s.now + t.beforeSample;
    var k := ObserveLeader(s.core, t.leader);
    var k' := SampleCancel(k, t.cancelled);
    ObserveKeeps(s.core, t.leader);
    SampleKeeps(k, t.cancelled, false);
    SampleKeeps(k', false, DeadlinePassed(p.deadline, now));
    HonestSamples(p.deadline, s.core, s.now, false, t.leader, now);
    HonestSamples(p.deadline, k, now, t.cancelled, t.leader, now);
    HonestSamples(p.deadline, k', now, false, t.leader, now);
  }

  lemma AwaitedKeeps(o: Exec, p: Plan, s: Exec, t: MainTurn)
    requires MainSound(o, p, s)
    ensures MainSound(o, p, Awaited(p, s, t))
  {
    var now := s.now + t.beforeWait;
    var wait := WaitQuantum(p.deadline, None, now);
    var next := PollAndPump(s.(now := now), wait, t.poll, t.slept, t.work);
    assert Awaited(p, s, t) == next;
    PollKeepsStreams(o, s, now, wait, t.poll, t.slept, t.work);
    PollKeepsCore(p, s, now, wait, t.poll, t.slept, t.work);
  }

  lemma DrainedKeeps(o: Exec, p: Plan, s: Exec, until: nat, t: CleanTurn)
    requires CleanSound(o, p, s)
    ensures CleanSound(o, p, Drained(s, until, t))
    ensures Drained(s, until, t).core.seen.reapFailures == s.core.seen.reapFailures
  {
    var now := s.now + t.beforeWait;
    var wait := WaitQuantum(None, Some(until), now);
    var next := PollAndPump(s.(now := now), wait, t.poll, t.slept, t.work);
    assert Drained(s, until, t) == next;
    PollKeepsStreams(o, s, now, wait, t.poll, t.slept, t.work);
    PollKeepsCore(p, s, now, wait, t.poll, t.slept, t.work);
  }

  lemma MainOnceKeeps(o: Exec, p: Plan, s: Exec, t: MainTurn)
    requires MainSound(o, p, s)
    ensures MainSound(o, p, MainOnce(p, s, t).state)
  {
    SampledKeeps(o, p, s, t);
    AwaitedKeeps(o, p, Sampled(p, s, t), t);
  }

  lemma {:induction false} MainLoopKeeps(o: Exec, p: Plan, s: Exec, turns: seq<MainTurn>)
    requires MainSound(o, p, s)
    ensures MainSound(o, p, MainLoop(p, s, turns).state)
    ensures MainLoop(p, s, turns).Left? ==> Triggered(MainLoop(p, s, turns).state)
    decreases |turns|
  {
    if turns != [] {
      MainOnceKeeps(o, p, s, turns[0]);
      MainLoopKeeps(o, p, MainOnce(p, s, turns[0]).state, turns[1..]);
    }
  }

  lemma ResampledKeeps(o: Exec, p: Plan, s: Exec, t: CleanTurn)
    requires CleanSound(o, p, s)
    ensures CleanSound(o, p, Resampled(p, s, t))
    ensures Resampled(p, s, t).core.seen.reapFailures == s.core.seen.reapFailures
  {
    var now := s.now + t.beforeSample;
    var k := SampleCancel(s.core, t.cancelled);
    var k' := SampleDeadline(k, DeadlinePassed(p.deadline, now));
    SampleKeeps(s.core, t.cancelled, false);
    SampleKeeps(k, false, DeadlinePassed(p.deadline, now));
    ObserveKeeps(k', t.leader);
    HonestSamples(p.deadline, s.core, s.now, t.cancelled, t.leader, now);
    HonestSamples(p.deadline, k, now, false, t.leader, now);
    HonestSamples(p.deadline, k', now, false, t.leader, now);
  }

  lemma ReapKeepsHonest(deadline: Option<nat>, k: Core, now: nat, reply: WaitReply)
    requires Honest(deadline, k, now)
    ensures Honest(deadline, ReapIfWaitable(k, reply), now)
  {
  }

  lemma ReapPhaseKeeps(o: Exec, p: Plan, s: Exec, until: nat, t: CleanTurn)
    requires CleanSound(o, p, s) && s.core.seen.reapFailures == []
    ensures CleanSound(o, p, ReapPhase(p, s, until, t).state)
    ensures ReapPhase(p, s, until, t).Ongoing? ==> ReapPhase(p, s, until, t).state.core.seen.reapFailures == []
  {
    var guarded := s.(now := s.now + t.beforeGuard);
    LaterKeeps(o, p, s, guarded.now);
    if guarded.now < until {
      ResampledKeeps(o, p, guarded, t);
      var sampled := Resampled(p, guarded, t);
      ReapKeepsHonest(p.deadline, sampled.core, sampled.now, t.wait);
      if MayReap(sampled.core) {
        ReapKeeps(sampled.core, t.wait);
      }
    }
  }

  lemma CleanOnceKeeps(o: Exec, p: Plan, s: Exec, until: nat, t: CleanTurn)
    requires CleanSound(o, p, s) && s.core.seen.reapFailures == []
    ensures CleanSound(o, p, CleanOnce(p, s, until, t).state)
    ensures CleanOnce(p, s, until, t).Ongoing? ==> CleanOnce(p, s, until, t).state.core.seen.reapFailures == []
  {
    ReapPhaseKeeps(o, p, s, until, t);
    DrainedKeeps(o, p, ReapPhase(p, s, until, t).state, until, t);
  }

  lemma {:induction false} CleanLoopKeeps(o: Exec, p: Plan, s: Exec, until: nat, turns: seq<CleanTurn>)
    requires CleanSound(o, p, s) && s.core.seen.reapFailures == []
    ensures CleanSound(o, p, CleanLoop(p, s, until, turns).state)
    decreases |turns|
  {
    if turns != [] {
      CleanOnceKeeps(o, p, s, until, turns[0]);
      if CleanOnce(p, s, until, turns[0]).Ongoing? {
        CleanLoopKeeps(o, p, CleanOnce(p, s, until, turns[0]).state, until, turns[1..]);
      }
    }
  }

  lemma KillKeeps(o: Exec, p: Plan, s: Exec, kill: Kill)
    requires MainSound(o, p, s)
    ensures CleanSound(o, p, KillGroup(s, kill)) && KillGroup(s, kill).core.seen.reapFailures == []
  {
    SignalStartsCleaning(s.core, kill.reply);
  }

  lemma CleanupKeeps(o: Exec, p: Plan, s: Exec, w: World)
    requires MainSound(o, p, s)
    ensures CleanSound(o, p, Cleanup(p, s, w).state)
  {
    KillKeeps(o, p, s, w.kill);
    var until := CleanupUntil(s, w);
    CleanLoopKeeps(o, p, KillGroup(s, w.kill), until, w.clean);
  }

  lemma SupervisionSound(c: Command, w: World)
    requires Refusal(c, w.launch).None?
    ensures var o := FirstState(c, w.launch); var p := PlanOf(c, w.launch);
      && MainSound(o, p, MainLoop(p, o, w.main).state)
      && (MainLoop(p, o, w.main).Left? ==> Triggered(MainLoop(p, o, w.main).state))
  {
    FirstStateSound(c, w.launch);
    MainLoopKeeps(FirstState(c, w.launch), PlanOf(c, w.launch), FirstState(c, w.launch), w.main);
  }

  /** The shape of a finished run. */
  lemma RunAs(c: Command, w: World)
    requires Run(c, w).Finished?
    ensures Refusal(c, w.launch).None?
    ensures var p := PlanOf(c, w.launch); var main := MainLoop(p, FirstState(c, w.launch), w.main);
      && main.Left? && Cleanup(p, main.state, w).Left?
      && Run(c, w).last == Cleanup(p, main.state, w).state
      && p.started <= Run(c, w).last.now
      && Run(c, w) == Conclude(p, Run(c, w).last, w.farewell)
  {
    MainLoopForward(PlanOf(c, w.launch), FirstState(c, w.launch), w.main);
  }

  lemma LastSound(c: Command, w: World)
    requires Run(c, w).Finished?
    ensures Refusal(c, w.launch).None?
    ensures CleanSound(FirstState(c, w.launch), PlanOf(c, w.launch), Run(c, w).last)
  {
    RunAs(c, w);
    SupervisionSound(c, w);
    var o := FirstState(c, w.launch);
    CleanupKeeps(o, PlanOf(c, w.launch), MainLoop(PlanOf(c, w.launch), o, w.main).state, w);
  }

  /** A run that is still going is in one of its two loops, with that loop's invariant. */
  lemma OngoingSound(c: Command, w: World)
    requires Run(c, w).InProgress?
    ensures Refusal(c, w.launch).None?
    ensures var o := FirstState(c, w.launch); var p := PlanOf(c, w.launch);
      MainSound(o, p, Run(c, w).state) || CleanSound(o, p, Run(c, w).state)
  {
    SupervisionSound(c, w);
    var o := FirstState(c, w.launch);
    CleanupKeeps(o, PlanOf(c, w.launch), MainLoop(PlanOf(c, w.launch), o, w.main).state, w);
  }

  lemma ConcludedAs(p: Plan, s: Exec, f: Farewell)
    requires s.core.signal.Some? && p.started <= s.now
    ensures var end := Conclude(p, s, f); var k := end.core;
      && end.last == s
      && k == TransferLeader(s.core, f.reaperAlive)
      && end.dropped == DropOwned(k.owned, f.dropReply, f.dropAlive)
      && k.signal.Some?
      && end.evidence == EvidenceOf(k, s.now + f.work - p.started, Report(s.out), Report(s.err),
                                    CleanupOf(s.core.owned.child, s.out.Terminal(), s.err.Terminal()))
      && end.result == Classify(ChoosePrimary(k.seen, s.out.overflow, s.err.overflow), p.configured, end.evidence)
  {
  }

  lemma TransferredCore(p: Plan, o: Exec, s: Exec, f: Farewell)
    requires CleanSound(o, p, s)
    ensures var k := TransferLeader(s.core, f.reaperAlive);
      && Parted(k) && Honest(p.deadline, k, s.now)
      && k.seen.reapFailures == FailuresIn(k.owned.history)
      && (s.core.owned.child ==> (k.disposition.BackgroundReaper? <==> f.reaperAlive))
      && (!s.core.owned.child ==> k == s.core && k.disposition.Reaped?)
  {
    TransferParts(s.core, f.reaperAlive);
  }

  /** How a finished run's result and evidence were put together. */
  lemma FinishedAs(c: Command, w: World)
    requires Run(c, w).Finished?
    ensures Refusal(c, w.launch).None?
    ensures var end := Run(c, w); var k := end.core; var e := end.evidence;
      && k == TransferLeader(end.last.core, w.farewell.reaperAlive)
      && end.dropped == DropOwned(k.owned, w.farewell.dropReply, w.farewell.dropAlive)
      && k.signal.Some?
      && end.last.now >= w.launch.started
      && e == EvidenceOf(k, end.last.now + w.farewell.work - w.launch.started, Report(end.last.out),
                         Report(end.last.err),
                         CleanupOf(end.last.core.owned.child, end.last.out.Terminal(), end.last.err.Terminal()))
      && end.result == Classify(ChoosePrimary(k.seen, end.last.out.overflow, end.last.err.overflow),
                                c.execution.Duration(), e)
  {
    RunAs(c, w);
    ConcludedAs(PlanOf(c, w.launch), Run(c, w).last, w.farewell);
  }

  lemma FinishedStreams(c: Command, w: World)
    requires Run(c, w).Finished?
    ensures var o := FirstState(c, w.launch); var last := Run(c, w).last;
      && Faithful(last.out) && SameShape(o.out, last.out) && Replayed(o.out, last.out)
      && Faithful(last.err) && SameShape(o.err, last.err) && Replayed(o.err, last.err)
  {
    LastSound(c, w);
  }

  lemma FinishedCore(c: Command, w: World)
    requires Run(c, w).Finished?
    ensures var end := Run(c, w); var k := end.core;
      && Cleaning(end.last.core) && Parted(k)
      && k.seen.reapFailures == FailuresIn(k.owned.history)
      && (end.last.core.owned.child ==> (k.disposition.BackgroundReaper? <==> w.farewell.reaperAlive))
      && (!end.last.core.owned.child ==> k == end.last.core && k.disposition.Reaped?)
      && Honest(PlanOf(c, w.launch).deadline, k, end.last.now)
  {
    FinishedAs(c, w);
    LastSound(c, w);
    TransferredCore(PlanOf(c, w.launch), FirstState(c, w.launch), Run(c, w).last, w.farewell);
  }

  // ---------------------------------------------------------------------------------------------
  // Lifecycle laws.

  /** Histories of the child, at whatever point the run stands. */
  function HistoryOf(end: RunEnd): History {
    match end
    case Refused(_) => Start
    case InProgress(s) => s.core.owned.history
    case Finished(_, _, _, _, dropped) => dropped.history
  }

  /** The owned child as the run has left it. */
  function OwnedOf(end: RunEnd): Owned
    requires !end.Refused?
  {
    if end.InProgress? then end.state.core.owned else end.dropped
  }

  lemma OwnedIsSound(c: Command, w: World)
    requires !Run(c, w).Refused?
    ensures SoundOwned(OwnedOf(Run(c, w)))
    ensures Run(c, w).Finished? ==> SoundOwned(Run(c, w).core.owned)
  {
    var end := Run(c, w);
    if end.Finished? {
      FinishedAs(c, w);
      FinishedCore(c, w);
      DropAfterTransfer(end.core, w.farewell.dropReply, w.farewell.dropAlive);
    } else {
      OngoingSound(c, w);
    }
  }

  /**
   * Kill before reap, no signal after reap and observed before waited for, over every run, including
   * the final drop. What is owned is at every point what the history says, and a panic after any
   * event, inside a turn or between two of them, drops it lawfully.
   */
  lemma EveryRunIsLawful(c: Command, w: World, n: nat, kill: KillReply, alive: bool)
    requires n <= Length(HistoryOf(Run(c, w)))
    ensures var end := Run(c, w); var h := HistoryOf(end);
      && Lawful(h)
      && (!end.Refused? ==> OwnedOf(end) == HolderOf(h))
      && (end.Finished? ==> end.core.owned == HolderOf(end.core.owned.history))
      && (Has(Prefix(h, n), Spawning) ==> Lawful(DropOwned(HolderOf(Prefix(h, n)), kill, alive).history))
  {
    var end := Run(c, w);
    if !end.Refused? {
      OwnedIsSound(c, w);
      SoundOwnedIsHolder(OwnedOf(end));
      if end.Finished? {
        SoundOwnedIsHolder(end.core.owned);
      }
    }
    if Has(Prefix(HistoryOf(end), n), Spawning) {
      PanicIsLawful(HistoryOf(end), n, kill, alive);
    }
  }

  /** An accepted handoff is the last event of its run, and the reaper's wait is lawful after it. */
  lemma AcceptedHandoffIsLast(c: Command, w: World, reply: WaitReply)
    requires Run(c, w).Finished? && Run(c, w).core.disposition.BackgroundReaper?
    ensures var h := HistoryOf(Run(c, w));
      h.Then? && h.event == Offered(true) && Lawful(Then(h, Waited(Reaper, reply)))
  {
    FinishedAs(c, w);
    FinishedCore(c, w);
    var end := Run(c, w);
    DropAfterTransfer(end.core, w.farewell.dropReply, w.farewell.dropAlive);
    ReaperMayWait(end.dropped.history, reply);
  }

  /**
   * The report tells where the reap obligation went: reaped by the supervisor with exactly this
   * status, accepted by the background reaper, or refused by it, with every failure on the way; the
   * later drop changes none of it.
   */
  lemma EvidenceIsTruthful(c: Command, w: World)
    requires Run(c, w).Finished?
    ensures var end := Run(c, w); var e := end.evidence; var h := end.dropped.history;
      && e.leaderStatus == ReapedStatus(h)
      && (e.leaderStatus.Some? <==> Has(h, SupervisorReap))
      && (e.reap.disposition.Reaped? <==> Has(h, SupervisorReap))
      && (e.reap.disposition.BackgroundReaper? <==> Has(h, Acceptance))
      && (e.reap.disposition.Unreaped? <==> Has(h, Offer) && !Has(h, Acceptance))
      && (e.reap.disposition.Unreaped? <==> end.dropped.child)
      && !e.reap.disposition.DispositionUnknown?
      && Some(e.signal) == FirstSignal(h)
      && e.reap.failures == FailuresIn(end.core.owned.history)
      && (e.cleanup.CleanupComplete? ==> e.reap.disposition.Reaped? && e.reap.failures == [])
  {
    FinishedAs(c, w);
    FinishedCore(c, w);
    var end := Run(c, w);
    DropAfterTransfer(end.core, w.farewell.dropReply, w.farewell.dropAlive);
    DropKeepsFacts(end.core.owned, w.farewell.dropReply, w.farewell.dropAlive);
  }

  /** Cleanup is complete exactly when nothing is left over, and otherwise names what is. */
  lemma CleanupIsTruthful(c: Command, w: World)
    requires Run(c, w).Finished?
    ensures var end := Run(c, w); var e := end.evidence;
      && (e.cleanup.CleanupComplete? <==>
            e.reap.disposition.Reaped? && end.last.out.Terminal() && end.last.err.Terminal())
      && (!e.cleanup.CleanupComplete? ==>
            && e.cleanup.CleanupPartial?
            && (e.cleanup.leaderUnsettled <==> !e.reap.disposition.Reaped?)
            && (Stdout in e.cleanup.unfinished <==> !end.last.out.Terminal())
            && (Stderr in e.cleanup.unfinished <==> !end.last.err.Terminal()))
  {
    FinishedAs(c, w);
    FinishedCore(c, w);
  }

  /**
   * Each report is about its own stream, and says of it what the simple specification says. A stream
   * is described here by the pipe it was given and the bytes and the end it has read of it.
   */
  ghost predicate FaithfulReport(name: StreamName, pipe: Option<seq<Read>>, policy: CapturePolicy, s: Stream,
                                 r: CaptureReport) {
    var c := r.captured;
    && r.stream == name
    && r.failure == s.failure
    && (c.completeness.Redirected? <==> pipe.None?)
    && (pipe.None? ==> c.bytes == [] && r.failure.None?)
    && (pipe.Some? ==>
          && c.bytes <= s.drained <= Written(pipe.value)
          && (policy.BoundedCapture? ==> |c.bytes| <= policy.limit)
          && (s.eof ==> s.drained == Written(pipe.value))
          && c.completeness == Counted(s.eof, Min(U64_MAX, |s.drained| - |c.bytes|))
          && (s.eof || s.failure != Some(AllocationFailure) ==> c.bytes == Kept(policy, s.drained)))
  }

  /** How a piped stream is reported, given whether it ended and how many of its bytes are missing. */
  function Counted(eof: bool, missing: nat): CaptureCompleteness {
    if !eof then Incomplete(missing) else if missing == 0 then Complete else Truncated(missing)
  }

  /** What a policy keeps of the bytes drained. */
  function Kept(policy: CapturePolicy, drained: seq<byte>): seq<byte> {
    match policy
    case UnboundedCapture => drained
    case BoundedCapture(limit, _) => drained[..Min(limit, |drained|)]
  }

  lemma ReportIsFaithful(name: StreamName, setup: PipeSetup, policy: CapturePolicy, s: Stream)
    requires var o := OpenStream(name, setup, policy); Faithful(s) && SameShape(o, s) && Replayed(o, s)
    ensures FaithfulReport(name, setup.pipe, policy, s, Report(s))
  {
    var o := OpenStream(name, setup, policy);
    if setup.pipe.Some? {
      if setup.setNonblocking.None? {
        DrainedIsWritten(o, s);
      } else {
        assert s.consumed == [];
        assert Forget(s) == Forget(o);
        assert s.eof == Forget(s).eof && s.drained == Forget(s).drained;
      }
      ReportKeepsAPrefix(policy, s);
    }
  }

  lemma ReportKeepsAPrefix(policy: CapturePolicy, s: Stream)
    requires Faithful(s) && !s.redirected
    requires s.storage.Bounded? <==> policy.BoundedCapture?
    requires s.storage.Bounded? ==> s.storage.limit == policy.limit
    ensures var c := Report(s).captured;
      && c.bytes == s.storage.bytes <= s.drained
      && c.completeness == Counted(s.eof, Min(U64_MAX, |s.drained| - |c.bytes|))
      && (s.failure != Some(AllocationFailure) ==> c.bytes == Kept(policy, s.drained))
  {
    assert s.storage.bytes == s.drained[..|s.storage.bytes|];
  }

  lemma ReportsAreFaithful(c: Command, w: World)
    requires Run(c, w).Finished?
    ensures var end := Run(c, w);
      && FaithfulReport(Stdout, w.launch.stdout.pipe, c.stdoutCapture, end.last.out, end.evidence.stdout)
      && FaithfulReport(Stderr, w.launch.stderr.pipe, c.stderrCapture, end.last.err, end.evidence.stderr)
  {
    FinishedAs(c, w);
    FinishedStreams(c, w);
    ReportIsFaithful(Stdout, w.launch.stdout, c.stdoutCapture, Run(c, w).last.out);
    ReportIsFaithful(Stderr, w.launch.stderr, c.stderrCapture, Run(c, w).last.err);
  }

  /** What a successful run owes its caller for one stream, in terms of the pipe and the policy alone. */
  ghost predicate Delivered(pipe: Option<seq<Read>>, policy: CapturePolicy, r: CaptureReport) {
    && r.failure.None?
    && match pipe
       case None => r.captured == REDIRECTED_CAPTURE
       case Some(feed) =>
         var all := Written(feed);
         (match policy
          case UnboundedCapture => r.captured == CapturedStream(all, Complete)
          case BoundedCapture(limit, FailClosed) =>
            |all| <= limit && r.captured == CapturedStream(all, Complete)
          case BoundedCapture(limit, TruncateAndDrain) =>
            r.captured == (if |all| <= limit then CapturedStream(all, Complete)
                           else CapturedStream(all[..limit], Truncated(Min(U64_MAX, |all| - limit)))))
  }

  lemma TerminalStreamDelivered(name: StreamName, setup: PipeSetup, policy: CapturePolicy, s: Stream)
    requires var o := OpenStream(name, setup, policy); Faithful(s) && SameShape(o, s) && Replayed(o, s)
    requires s.Terminal() && s.failure.None? && s.overflow.None?
    ensures Delivered(setup.pipe, policy, Report(s))
  {
    ReportIsFaithful(name, setup, policy, s);
    if setup.pipe.Some? && policy.BoundedCapture? && |s.drained| <= policy.limit {
      assert s.drained[..|s.drained|] == s.drained;
    }
  }

  /** The two sampled causes, read off the observations. */
  lemma UnseenCauses(c: Command, w: World)
    requires Run(c, w).Finished?
    ensures var end := Run(c, w); var h := end.dropped.history;
      && (end.core.seen.cancelled <==> Has(h, CancelSeen))
      && (end.core.seen.deadlineElapsed <==> Has(h, DeadlineSeen))
      && (end.core.disposition.Reaped? ==> !Has(h, Offer))
  {
    FinishedAs(c, w);
    FinishedCore(c, w);
    DropKeepsFacts(Run(c, w).core.owned, w.farewell.dropReply, w.farewell.dropAlive);
  }

  /** End-to-end meaning of `Ok`. */
  lemma SuccessIsSound(c: Command, w: World)
    requires Run(c, w).Finished? && Run(c, w).result.Ok?
    ensures var end := Run(c, w); var o := end.result.value; var e := o.evidence; var h := end.dropped.history;
      && e == end.evidence
      && e.leaderStatus == Some(o.status) && o.status.Success()
      && ReapedStatus(h) == Some(o.status) && Has(h, SupervisorReap)
      && (e.signal.Sent? || e.signal.AlreadyGone?) && Some(e.signal) == FirstSignal(h)
      && CancellationSettled(e)
      && !Has(h, CancelSeen) && !Has(h, DeadlineSeen) && !Has(h, Offer)
      && Delivered(w.launch.stdout.pipe, c.stdoutCapture, e.stdout)
      && Delivered(w.launch.stderr.pipe, c.stderrCapture, e.stderr)
  {
    FinishedAs(c, w);
    FinishedStreams(c, w);
    EvidenceIsTruthful(c, w);
    var end := Run(c, w);
    OkAsks(end.core.seen, end.last.out.overflow, end.last.err.overflow, c.execution.Duration(), end.evidence);
    TerminalStreamDelivered(Stdout, w.launch.stdout, c.stdoutCapture, end.last.out);
    TerminalStreamDelivered(Stderr, w.launch.stderr, c.stderrCapture, end.last.err);
    UnseenCauses(c, w);
  }

  // ---------------------------------------------------------------------------------------------
  // Capture limits.

  /** A bounded prefix of what was read is kept, and the rest is counted, at whatever point. */
  ghost predicate BoundedPrefix(policy: CapturePolicy, s: Stream) {
    && s.storage.bytes <= s.drained
    && (policy.BoundedCapture? ==> |s.storage.bytes| <= policy.limit)
    && s.discarded == Min(U64_MAX, |s.drained| - |s.storage.bytes|)
    && (s.discarded == 0 <==> s.storage.bytes == s.drained)
  }

  lemma FaithfulIsABoundedPrefix(name: StreamName, setup: PipeSetup, policy: CapturePolicy, s: Stream)
    requires Faithful(s) && SameShape(OpenStream(name, setup, policy), s)
    ensures BoundedPrefix(policy, s)
  {
  }

  lemma RetainedIsABoundedPrefix(c: Command, w: World)
    requires !Run(c, w).Refused?
    ensures var s := if Run(c, w).Finished? then Run(c, w).last else Run(c, w).state;
      BoundedPrefix(c.stdoutCapture, s.out) && BoundedPrefix(c.stderrCapture, s.err)
  {
    var s := if Run(c, w).Finished? then Run(c, w).last else Run(c, w).state;
    if Run(c, w).Finished? {
      FinishedStreams(c, w);
    } else {
      OngoingSound(c, w);
    }
    FaithfulIsABoundedPrefix(Stdout, w.launch.stdout, c.stdoutCapture, s.out);
    FaithfulIsABoundedPrefix(Stderr, w.launch.stderr, c.stderrCapture, s.err);
  }

  ghost predicate Exceeded(s: Stream) {
    s.FailsClosed() && |s.drained| > s.storage.limit
  }

  lemma OverflowMeansExceeded(s: Stream)
    requires Faithful(s)
    ensures s.overflow == (if Exceeded(s) then Some(s.storage.limit) else None)
  {
  }

  /** Fail closed, over whole runs: exactly the overflowing runs are reported so, stdout first. */
  lemma LimitsFailClosed(c: Command, w: World)
    requires Run(c, w).Finished?
    ensures var end := Run(c, w);
      && (Exceeded(end.last.out) ==>
            end.result == Err(CaptureLimitExceeded(Stdout, end.last.out.storage.limit, end.evidence)))
      && (!Exceeded(end.last.out) && Exceeded(end.last.err) ==>
            end.result == Err(CaptureLimitExceeded(Stderr, end.last.err.storage.limit, end.evidence)))
      && (end.result.Err? && end.result.error.CaptureLimitExceeded? ==>
            Exceeded(end.last.out) || Exceeded(end.last.err))
  {
    FinishedAs(c, w);
    FinishedStreams(c, w);
    var end := Run(c, w);
    OverflowMeansExceeded(end.last.out);
    OverflowMeansExceeded(end.last.err);
    LimitDecides(end.core.seen, end.last.out.overflow, end.last.err.overflow, c.execution.Duration(), end.evidence);
  }

  ghost predicate Overshoots(s: Stream, slack: nat) {
    s.FailsClosed() && |s.drained| > s.storage.limit + slack
  }

  /** One turn may carry a fail-closed stream past its limit by eight chunks, and then the loop ends. */
  lemma {:induction false} OvershootIsBounded(o: Exec, p: Plan, s: Exec, turns: seq<MainTurn>)
    requires MainSound(o, p, s)
    requires !Overshoots(s.out, 65_536) && !Overshoots(s.err, 65_536)
    ensures var t := MainLoop(p, s, turns).state; !Overshoots(t.out, 65_536) && !Overshoots(t.err, 65_536)
    decreases |turns|
  {
    if turns != [] {
      var t := turns[0];
      MainOnceKeeps(o, p, s, t);
      SampledKeeps(o, p, s, t);
      var sampled := Sampled(p, s, t);
      if !Triggered(sampled) {
        PumpFaithful(s.out, CHUNKS_PER_STREAM_TURN);
        PumpFaithful(s.err, CHUNKS_PER_STREAM_TURN);
      }
      OvershootIsBounded(o, p, MainOnce(p, s, t).state, turns[1..]);
    }
  }

  /** So no run signals its group with more than that drained. */
  lemma RunOvershootIsBounded(c: Command, w: World)
    requires Refusal(c, w.launch).None?
    ensures var s := MainLoop(PlanOf(c, w.launch), FirstState(c, w.launch), w.main).state;
      !Overshoots(s.out, 65_536) && !Overshoots(s.err, 65_536)
  {
    FirstStateSound(c, w.launch);
    OvershootIsBounded(FirstState(c, w.launch), PlanOf(c, w.launch), FirstState(c, w.launch), w.main);
  }

  function FullChunk(): Chunk {
    seq(8192, i => 0)
  }

  function FullChunks(n: nat): seq<Read> {
    if n == 0 then [] else [Data(FullChunk(), true)] + FullChunks(n - 1)
  }

  /** A fail-closed stream that may keep nothing, over a pipe of full chunks. */
  ghost predicate Flooded(s: Stream, n: nat) {
    s.pipe == Some(FullChunks(n)) && s.storage.Bounded? && s.storage.limit == 0
  }

  lemma {:induction false} FloodIsDrained(s: Stream, n: nat)
    requires Flooded(s, n)
    ensures |Pump(s, n).drained| == |s.drained| + n * 8192
    decreases n
  {
    if n > 0 {
      var next := Absorb(s.(pipe := Some(FullChunks(n - 1))), Data(FullChunk(), true));
      assert s.pipe.value[0] == Data(FullChunk(), true) && s.pipe.value[1..] == FullChunks(n - 1);
      FloodIsDrained(next, n - 1);
    }
  }

  const NO_LIMIT_LEFT := Command(NoDeadline, BoundedCapture(0, FailClosed), BoundedCapture(0, FailClosed))

  function FloodedWorld(chunks: nat, kill: Kill, farewell: Farewell): World {
    var open := PipeSetup(Some(FullChunks(chunks)), None);
    World(Launch(None, 0, 0, None, open, open, 0),
          [FLOODED_TURN], kill, [], farewell)
  }

  const FLOODED_TURN := MainTurn(StillRunning, false, 0, 0, Ready(true, true), 0, 0)

  lemma FloodedTurn(p: Plan, s: Exec, chunks: nat)
    requires chunks == 8 && p.deadline.None? && Watching(s.core) && s.core.seen == NOTHING_OBSERVED
    requires Faithful(s.out) && Flooded(s.out, chunks) && s.out.drained == [] && s.out.FailsClosed()
    requires Faithful(s.err) && Flooded(s.err, chunks) && s.err.drained == [] && s.err.FailsClosed()
    ensures var once := MainOnce(p, s, FLOODED_TURN);
      && once.Ongoing?
      && |once.state.out.drained| == 65_536 && once.state.out.overflow == Some(0)
      && |once.state.err.drained| == 65_536 && once.state.err.overflow == Some(0)
  {
    FloodIsDrained(s.out, chunks);
    FloodIsDrained(s.err, chunks);
    PumpFaithful(s.out, chunks);
    PumpFaithful(s.err, chunks);
  }

  lemma FloodedStart(chunks: nat, kill: Kill, farewell: Farewell)
    ensures var c, w := NO_LIMIT_LEFT, FloodedWorld(chunks, kill, farewell);
      && Refusal(c, w.launch).None? && PlanOf(c, w.launch).deadline.None?
      && var o := FirstState(c, w.launch);
         && Watching(o.core) && o.core.seen == NOTHING_OBSERVED
         && Faithful(o.out) && Flooded(o.out, chunks) && o.out.drained == [] && o.out.FailsClosed()
         && Faithful(o.err) && Flooded(o.err, chunks) && o.err.drained == [] && o.err.FailsClosed()
  {
    FirstStateSound(NO_LIMIT_LEFT, FloodedWorld(chunks, kill, farewell).launch);
  }

  lemma OneTurn(p: Plan, s: Exec, t: MainTurn)
    ensures MainLoop(p, s, [t]) == MainOnce(p, s, t)
  {
    assert [t][1..] == [];
  }

  /** The bound is reached: one turn over two flooded pipes drains all of the 65,536 bytes of each. */
  lemma TheOvershootIsReached(kill: Kill, farewell: Farewell)
    ensures var c, w := NO_LIMIT_LEFT, FloodedWorld(CHUNKS_PER_STREAM_TURN, kill, farewell);
      && Refusal(c, w.launch).None?
      && var s := MainLoop(PlanOf(c, w.launch), FirstState(c, w.launch), w.main).state;
         && |s.out.drained| == 65_536 && s.out.overflow == Some(0)
         && |s.err.drained| == 65_536 && s.err.overflow == Some(0)
  {
    var c, w := NO_LIMIT_LEFT, FloodedWorld(CHUNKS_PER_STREAM_TURN, kill, farewell);
    FloodedStart(CHUNKS_PER_STREAM_TURN, kill, farewell);
    FloodedTurn(PlanOf(c, w.launch), FirstState(c, w.launch), CHUNKS_PER_STREAM_TURN);
    OneTurn(PlanOf(c, w.launch), FirstState(c, w.launch), FLOODED_TURN);
  }

  // ---------------------------------------------------------------------------------------------
  // Classification.

  /** What each verdict is reported as, with no promotion. */
  function ResultOf(verdict: Primary, configured: Option<nat>, e: LifecycleEvidence): RunResult {
    match verdict
    case Limit(stream, limit) => Err(CaptureLimitExceeded(stream, limit, e))
    case CancelledFirst => Err(Cancelled(e))
    case DeadlineFirst => ClassifyTimeout(configured, e)
    case CaptureFailure => Err(CaptureFailed(e))
    case Supervision(source) => Err(SupervisionFailed(source, e))
    case Exit => ClassifyExit(e)
  }

  /** The verdict a finished run is reported under. */
  function Winner(end: RunEnd): Primary
    requires end.Finished?
  {
    PromoteCaptureFailure(ChoosePrimary(end.core.seen, end.last.out.overflow, end.last.err.overflow), end.evidence)
  }

  /** Every run is reported under the best verdict its facts support, in the documented order. */
  lemma PrecedenceIsFlat(c: Command, w: World, other: Primary)
    requires Run(c, w).Finished?
    ensures var end := Run(c, w); var winner := Winner(end);
      && end.result == ResultOf(winner, c.execution.Duration(), end.evidence)
      && Supports(end.core.seen, end.last.out.overflow, end.last.err.overflow, end.evidence, winner)
      && (Supports(end.core.seen, end.last.out.overflow, end.last.err.overflow, end.evidence, other) ==>
            other == winner || Rank(winner) < Rank(other))
  {
    FinishedAs(c, w);
    var end := Run(c, w);
    TwoStagesPickTheBestVerdict(end.core.seen, end.last.out.overflow, end.last.err.overflow, end.evidence, other);
  }

  /** Once any sample saw cancellation the run ends in a capture limit or in `Cancelled`, never in `Ok`. */
  lemma CancellationIsHonoured(c: Command, w: World)
    requires Run(c, w).Finished? && Has(HistoryOf(Run(c, w)), CancelSeen)
    ensures var r := Run(c, w).result; r.Err? && (r.error.CaptureLimitExceeded? || r.error.Cancelled?)
  {
    FinishedAs(c, w);
    UnseenCauses(c, w);
  }

  /** How many supervision turns a run takes, and how many cleanup turns pass their guard. */
  function MainTurns(p: Plan, s: Exec, turns: seq<MainTurn>): nat
    decreases |turns|
  {
    if turns == [] then 0
    else
      var once := MainOnce(p, s, turns[0]);
      if once.Left? then 1 else 1 + MainTurns(p, once.state, turns[1..])
  }

  function CleanTurns(p: Plan, s: Exec, until: nat, turns: seq<CleanTurn>): nat
    decreases |turns|
  {
    if turns == [] || s.now + turns[0].beforeGuard >= until then 0
    else
      var once := CleanOnce(p, s, until, turns[0]);
      if once.Left? then 1 else 1 + CleanTurns(p, once.state, until, turns[1..])
  }

  lemma {:induction false} MainFlagSticks(p: Plan, s: Exec, turns: seq<MainTurn>, i: nat)
    ensures s.core.seen.cancelled ==> MainLoop(p, s, turns).state.core.seen.cancelled
    ensures i < |turns| && i < MainTurns(p, s, turns) && turns[i].cancelled ==>
              MainLoop(p, s, turns).state.core.seen.cancelled
    decreases |turns|
  {
    if turns != [] {
      var once := MainOnce(p, s, turns[0]);
      if once.Ongoing? {
        MainFlagSticks(p, once.state, turns[1..], if i == 0 then 0 else i - 1);
      }
    }
  }

  lemma CleanOnceFlag(p: Plan, s: Exec, until: nat, t: CleanTurn)
    ensures var k := CleanOnce(p, s, until, t).state.core;
      && (s.core.seen.cancelled ==> k.seen.cancelled)
      && (s.now + t.beforeGuard < until && t.cancelled ==> k.seen.cancelled)
  {
    var phase := ReapPhase(p, s, until, t);
    assert s.core.seen.cancelled ==> phase.state.core.seen.cancelled;
    assert s.now + t.beforeGuard < until && t.cancelled ==> phase.state.core.seen.cancelled;
  }

  lemma {:induction false} CleanFlagSticks(p: Plan, s: Exec, until: nat, turns: seq<CleanTurn>, i: nat)
    ensures s.core.seen.cancelled ==> CleanLoop(p, s, until, turns).state.core.seen.cancelled
    ensures i < |turns| && i < CleanTurns(p, s, until, turns) && turns[i].cancelled ==>
              CleanLoop(p, s, until, turns).state.core.seen.cancelled
    decreases |turns|
  {
    if turns != [] {
      CleanOnceFlag(p, s, until, turns[0]);
      var once := CleanOnce(p, s, until, turns[0]);
      if once.Ongoing? {
        CleanFlagSticks(p, once.state, until, turns[1..], if i == 0 then 0 else i - 1);
      }
    }
  }

  /** A turn that the loop takes finds the flag set. */
  ghost predicate MainFlag(p: Plan, s: Exec, turns: seq<MainTurn>, i: nat) {
    i < |turns| && i < MainTurns(p, s, turns) && turns[i].cancelled
  }

  ghost predicate CleanFlag(p: Plan, s: Exec, until: nat, turns: seq<CleanTurn>, i: nat) {
    i < |turns| && i < CleanTurns(p, s, until, turns) && turns[i].cancelled
  }

  ghost predicate CleanupFlag(p: Plan, s: Exec, w: World, i: nat) {
    CleanFlag(p, KillGroup(s, w.kill), CleanupUntil(s, w), w.clean, i)
  }

  lemma CleanupFlagSticks(p: Plan, s: Exec, w: World, i: nat)
    requires s.core.seen.cancelled || CleanupFlag(p, s, w, i)
    ensures Cleanup(p, s, w).state.core.seen.cancelled
  {
    CleanFlagSticks(p, KillGroup(s, w.kill), CleanupUntil(s, w),
                    w.clean, i);
  }

  /**
   * No turn overlooks the flag: if it was set in any turn a finished run took, in either loop, the
   * result is a capture limit or `Cancelled`.
   */
  lemma EveryFlagCounts(c: Command, w: World, i: nat)
    requires Run(c, w).Finished?
    requires var p := PlanOf(c, w.launch); var o := FirstState(c, w.launch);
      MainFlag(p, o, w.main, i) || CleanupFlag(p, MainLoop(p, o, w.main).state, w, i)
    ensures var r := Run(c, w).result; r.Err? && (r.error.CaptureLimitExceeded? || r.error.Cancelled?)
  {
    var p, o := PlanOf(c, w.launch), FirstState(c, w.launch);
    MainFlagSticks(p, o, w.main, i);
    CleanupFlagSticks(p, MainLoop(p, o, w.main).state, w, i);
    RunAs(c, w);
    SeenCancelDecides(c, w);
  }

  lemma SeenCancelDecides(c: Command, w: World)
    requires Run(c, w).Finished? && Run(c, w).last.core.seen.cancelled
    ensures var r := Run(c, w).result; r.Err? && (r.error.CaptureLimitExceeded? || r.error.Cancelled?)
  {
    UnseenCauses(c, w);
    FinishedAs(c, w);
    CancellationIsHonoured(c, w);
  }

  /**
   * The defensive branches are dead for evidence the supervisor builds: a supervision failure always
   * carries a kernel error that was observed, a non-zero exit always carries its status, and a
   * lifecycle failure is exactly a completed exit whose group signal failed.
   */
  lemma DefensiveBranchesAreDead(c: Command, w: World)
    requires Run(c, w).Finished?
    ensures var end := Run(c, w); var e := end.evidence; var r := end.result;
      && !e.cleanup.CleanupUnknown? && !e.signal.SignalUnknown? && !e.reap.disposition.DispositionUnknown?
      && e.elapsed.Some?
      && (r.Err? && r.error.SupervisionFailed? ==> Some(r.error.source) == end.core.seen.observeError)
      && (r.Err? && r.error.NonZeroExit? ==> e.leaderStatus.Some? && !e.leaderStatus.value.Success())
      && ((r.Err? && r.error.LifecycleFailed?) <==>
            (Winner(end).Exit? && e.cleanup.CleanupComplete? && e.signal.SignalFailed?))
  {
    FinishedAs(c, w);
    FinishedCore(c, w);
  }

  // ---------------------------------------------------------------------------------------------
  // A supervisor that can no longer see its leader.

  ghost predicate Blind(k: Core) {
    k.seen.observeError.Some? && !k.seen.leaderWaitable && k.owned.child
  }

  lemma {:induction false} BlindStaysBlind(p: Plan, s: Exec, until: nat, turns: seq<CleanTurn>)
    requires Blind(s.core)
    ensures Blind(CleanLoop(p, s, until, turns).state.core)
    decreases |turns|
  {
    if turns != [] {
      BlindStaysBlind(p, CleanOnce(p, s, until, turns[0]).state, until, turns[1..]);
    }
  }

  /**
   * From any point of cleanup at which an observation error came before waitability, the leader is
   * never reaped by the supervisor: it is offered to the background reaper, and cleanup is incomplete.
   */
  lemma BlindLeaderIsHandedOff(o: Exec, p: Plan, s: Exec, until: nat, turns: seq<CleanTurn>, f: Farewell)
    requires CleanSound(o, p, s) && s.core.seen.reapFailures == []
    requires Blind(s.core)
    requires CleanLoop(p, s, until, turns).Left?
    ensures var last := CleanLoop(p, s, until, turns).state;
      && last.core.signal.Some? && p.started <= last.now
      && var e := Conclude(p, last, f).evidence;
         && e.reap.disposition == (if f.reaperAlive then BackgroundReaper else Unreaped)
         && e.leaderStatus.None?
         && e.cleanup.CleanupPartial? && e.cleanup.leaderUnsettled
         && !Has(last.core.owned.history, SupervisorWait)
         && Conclude(p, last, f).result.Err?
  {
    CleanLoopKeeps(o, p, s, until, turns);
    BlindStaysBlind(p, s, until, turns);
    TransferParts(CleanLoop(p, s, until, turns).state.core, f.reaperAlive);
  }

  lemma UnsettledLeaderIsOffered(c: Command, w: World)
    requires Run(c, w).Finished? && Run(c, w).last.core.owned.child
    ensures var e := Run(c, w).evidence;
      && e.reap.disposition == (if w.farewell.reaperAlive then BackgroundReaper else Unreaped)
      && e.leaderStatus.None? && e.cleanup.CleanupPartial? && e.cleanup.leaderUnsettled && Run(c, w).result.Err?
  {
    FinishedAs(c, w);
    FinishedCore(c, w);
    var end := Run(c, w);
    OkAsks(end.core.seen, end.last.out.overflow, end.last.err.overflow, c.execution.Duration(), end.evidence);
  }

  lemma CleanupStaysBlind(p: Plan, s: Exec, w: World)
    requires Blind(s.core)
    ensures Blind(Cleanup(p, s, w).state.core)
  {
    BlindStaysBlind(p, KillGroup(s, w.kill), CleanupUntil(s, w), w.clean);
  }

  /** The same for an error that ended the supervision loop. */
  lemma BlindSupervisionIsHandedOff(c: Command, w: World)
    requires Run(c, w).Finished?
    requires Blind(MainLoop(PlanOf(c, w.launch), FirstState(c, w.launch), w.main).state.core)
    ensures var e := Run(c, w).evidence;
      && e.reap.disposition == (if w.farewell.reaperAlive then BackgroundReaper else Unreaped)
      && e.leaderStatus.None? && e.cleanup.CleanupPartial? && Run(c, w).result.Err?
  {
    var p := PlanOf(c, w.launch);
    RunAs(c, w);
    CleanupStaysBlind(p, MainLoop(p, FirstState(c, w.launch), w.main).state, w);
    UnsettledLeaderIsOffered(c, w);
  }

  // ---------------------------------------------------------------------------------------------
  // Schedule independence of whole runs.

  lemma SameReport(s: Stream, t: Stream)
    requires Forget(s) == Forget(t)
    ensures Report(s) == Report(t) && s.drained == t.drained
  {
    assert Report(s) == Report(Forget(s)) && Report(t) == Report(Forget(t));
    assert s.drained == Forget(s).drained;
  }

  /**
   * For a fixed command and fixed answers of one pipe, every two runs that settle the stream report
   * the same capture of it, whatever their clocks, turns, signals, child and peer stream did.
   */
  lemma CapturesAreScheduleIndependent(c: Command, w: World, v: World)
    requires Run(c, w).Finished? && Run(c, v).Finished?
    ensures w.launch.stdout == v.launch.stdout && Run(c, w).last.out.Terminal() && Run(c, v).last.out.Terminal() ==>
              Run(c, w).evidence.stdout == Run(c, v).evidence.stdout
    ensures w.launch.stderr == v.launch.stderr && Run(c, w).last.err.Terminal() && Run(c, v).last.err.Terminal() ==>
              Run(c, w).evidence.stderr == Run(c, v).evidence.stderr
  {
    FinishedAs(c, w);
    FinishedAs(c, v);
    FinishedStreams(c, w);
    FinishedStreams(c, v);
    var a, b := Run(c, w).last, Run(c, v).last;
    if w.launch.stdout == v.launch.stdout && a.out.Terminal() && b.out.Terminal() {
      ClosedAlike(FirstState(c, w.launch).out, a.out, b.out);
      SameReport(a.out, b.out);
    }
    if w.launch.stderr == v.launch.stderr && a.err.Terminal() && b.err.Terminal() {
      ClosedAlike(FirstState(c, w.launch).err, a.err, b.err);
      SameReport(a.err, b.err);
    }
  }

  // ---------------------------------------------------------------------------------------------
  // The two adapters over a finished run (sync.rs).

  function OutputOf(r: RunResult): RunResult {
    match r
    case Ok(_) => r
    case Err(NonZeroExit(e)) =>
      (match e.leaderStatus
       case Some(status) => Ok(Output(status, e))
       case None => Err(SupervisionFailed(Synthetic(NonZeroWithoutStatus), e)))
    case Err(_) => r
  }

  function StatusOf(r: RunResult): Result<ExitStatus, Error> {
    match OutputOf(r)
    case Ok(o) => Ok(o.status)
    case Err(error) => Err(error)
  }

  /** Evidence as the supervisor builds it: every outcome known, and completeness earned. */
  ghost predicate WellBuilt(e: LifecycleEvidence) {
    && !e.cleanup.CleanupUnknown? && !e.signal.SignalUnknown? && !e.reap.disposition.DispositionUnknown?
    && (e.cleanup.CleanupComplete? ==> e.reap.disposition.Reaped? && e.reap.failures == [] && e.leaderStatus.Some?)
  }

  lemma OutputOfVerdict(winner: Primary, configured: Option<nat>, e: LifecycleEvidence)
    requires WellBuilt(e)
    ensures var result := ResultOf(winner, configured, e); var r := OutputOf(result);
      && (r.Ok? <==> winner.Exit? && CancellationSettled(e))
      && (r.Ok? ==> Some(r.value.status) == e.leaderStatus && r.value.evidence == e)
      && (r.Ok? && result.Err? <==> result.Err? && result.error.NonZeroExit?)
      && (r.Err? ==> r == result)
      && StatusOf(result) == (if r.Ok? then Ok(r.value.status) else Err(r.error))
  {
  }

  /**
   * `output` succeeds exactly when the leader was reaped and everything else settled cleanly, with
   * the status the supervisor reaped; every other result passes through unchanged.
   */
  lemma OutputPreservesTheExit(c: Command, w: World)
    requires Run(c, w).Finished?
    ensures var end := Run(c, w); var r := OutputOf(end.result);
      && (r.Ok? <==> Winner(end).Exit? && CancellationSettled(end.evidence))
      && (r.Ok? ==> Some(r.value.status) == ReapedStatus(end.dropped.history) && r.value.evidence == end.evidence)
      && (r.Ok? && end.result.Err? <==> end.result.Err? && end.result.error.NonZeroExit?)
      && (r.Err? ==> r == end.result)
      && StatusOf(end.result) == (if r.Ok? then Ok(r.value.status) else Err(r.error))
  {
    EvidenceIsTruthful(c, w);
    DefensiveBranchesAreDead(c, w);
    PrecedenceIsFlat(c, w, Exit);
    OutputOfVerdict(Winner(Run(c, w)), c.execution.Duration(), Run(c, w).evidence);
  }
}
