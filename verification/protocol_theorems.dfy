/** Safety of the managed protocol over every interleaving. */
module ProtocolTheorems {
  import opened Base
  import opened Outcome
  import opened Lifecycle
  import opened ManagedHandle
  import opened Protocol

  // ---------------------------------------------------------------------------------------------
  // The invariant, one concern at a time.

  /** The caller has asked for cancellation, or has gone. */
  ghost predicate Asked(c: Caller) {
    match c
    case Receiving(mode, _) => mode.Cancels?
    case Joining(mode, _, _) => mode.Cancels?
    case Returned(mode, _) => mode.Cancels?
    case Dropped => true
    case Vanished => true
    case _ => false
  }

  ghost predicate BeforeStartup(at: SupervisorAt) {
    at.Boot? || at.Arm? || at.Spawn? || at.Announce?
  }

  /** One startup message, sent once, read once, and never in the way. */
  ghost predicate StartupSound(s: System) {
    && (s.startup.sender <==> !s.at.Ended?)
    && (s.startup.receiver <==> s.caller.Starting? || s.caller.JoiningFailed?)
    && s.startupsSent <= 1
    && (BeforeStartup(s.at) ==> s.startupsSent == 0)
    && (!BeforeStartup(s.at) && !s.at.Ended? && s.at != DropSignal(ThenUnwind) && s.at != DropOffer(ThenUnwind) ==>
          s.startupsSent == 1)
    && (s.startupsSent == 0 ==> s.startup.queue == [])
    && |s.startup.queue| <= 1
    && (s.caller.Starting? && s.startupsSent == 1 ==> s.startup.queue != [])
    && (!s.caller.Starting? ==> s.startup.queue == [])
    && (s.startup.queue != [] && s.startup.queue[0].NotStarted? ==> s.at.Leaving? || s.at.Ended?)
    && (s.caller.JoiningFailed? ==> s.at.Leaving? || s.at.Ended?)
    && (s.caller.NotSpawned? ==> s.at.Ended?)
  }

  ghost predicate HasHandle(c: Caller) {
    c.Holding? || c.Receiving? || c.Joining?
  }

  /** The result the caller has received, wherever it keeps it. */
  ghost function Received(c: Caller): Option<RunResult> {
    match c
    case Holding(handle) => handle.result
    case Receiving(_, handle) => handle.result
    case Joining(_, handle, message) => Receive(handle, message).result
    case Returned(_, result) => Some(result)
    case _ => None
  }

  /** One result message, sent once and last, read once, and never in the way. */
  ghost predicate ResultSound(s: System) {
    && (s.result.sender <==> !s.at.Ended?)
    && (s.result.receiver <==> s.caller.Starting? || s.caller.JoiningFailed? || HasHandle(s.caller))
    && s.resultsSent <= 1
    && (s.resultsSent == 1 ==> s.at.Leaving? || s.at.Ended?)
    && (s.resultsSent == 0 ==> s.result.queue == [])
    && |s.result.queue| <= 1
    && (s.result.queue != [] ==> Received(s.caller).None?)
    && (s.result.receiver && Received(s.caller).None? && s.resultsSent == 1 ==> s.result.queue != [])
    && (Received(s.caller).Some? ==> s.resultsSent == 1 || s.at.Ended?)
    && (s.caller.Returned? ==> s.at.Ended?)
    && (HasHandle(s.caller) ==> s.caller.handle.supervisor)
  }

  /**
   * Nothing is on the cancel channel, and its sender is alive, until the caller asked or is done; and
   * once it asked, the next look at the channel hears it, if none has before.
   */
  ghost predicate CancelSound(s: System) {
    && (s.cancel.queue != [] ==> Asked(s.caller))
    && (!s.cancel.sender ==> Asked(s.caller) || s.at.Ended?)
    && (s.core.Some? && s.core.value.seen.cancelled ==> Asked(s.caller))
    && (!s.at.Ended? ==> s.cancel.receiver)
    && (Asked(s.caller) && !s.at.Ended? ==>
          s.cancel.CanReceive() || (s.core.Some? && s.core.value.seen.cancelled))
  }

  /** A child still held by its owner has been signalled, and the reaper would not take it. */
  ghost predicate Refused(o: Owned) {
    !o.reaper && Has(o.history, GroupSignal) && Has(o.history, Offer)
  }

  /** What is known of the child at each point of the supervisor. */
  ghost predicate ChildAt(at: SupervisorAt, core: Option<Core>) {
    && (core.Some? ==> SoundOwned(core.value.owned))
    && match at
       case Boot | Arm | Spawn => core.None?
       case Announce(NotStarted(_)) => core.None?
       case Announce(Started) => core == Some(NewCore())
       case Look | AskCancel | AskClock | Listen | Kill =>
         core.Some? && Watching(core.value)
       case AbandonSignal =>
         core.Some? && core.value.owned.child && core.value.owned.reaper
       case AbandonOffer =>
         core.Some? && core.value.owned.child && core.value.owned.reaper &&
         Has(core.value.owned.history, GroupSignal)
       case Guard | ListenAgain =>
         core.Some? && Cleaning(core.value) && core.value.owned.child && core.value.seen.reapFailures == []
       case Reap =>
         core.Some? && Cleaning(core.value) && core.value.owned.child && core.value.seen.reapFailures == [] &&
         core.value.seen.leaderWaitable
       case Transfer => core.Some? && Cleaning(core.value)
       case Conclude(unsettled) =>
         core.Some? && Parted(core.value) && (unsettled <==> !core.value.disposition.Reaped?)
       case DropSignal(ThenDeliver(r)) => core.Some? && Parted(core.value) && core.value.owned.child
       case DropOffer(ThenDeliver(r)) => core.Some? && Parted(core.value) && core.value.owned.child
       case DropSignal(_) => core.Some? && core.value.owned.child
       case DropOffer(_) => core.Some? && core.value.owned.child && Has(core.value.owned.history, GroupSignal)
       case Deliver(r) => core.Some? && Parted(core.value)
       case Leaving | Ended(_) => core.Some? && core.value.owned.child ==> Refused(core.value.owned)
  }

  ghost predicate ChildSound(s: System) {
    ChildAt(s.at, s.core)
  }

  /** A result the supervisor built agrees with its own locals, and never claims more than they do. */
  ghost predicate FromCore(k: Core, r: RunResult) {
    && (r.Ok? ==> Truthful(k, r.value.evidence) && CancellationSettled(r.value.evidence))
    && (r.Err? ==> HasEvidence(r.error) && Truthful(k, r.error.evidence))
    && (r.Err? && r.error.Cancelled? <==> k.seen.cancelled)
    && (r.Err? ==> !r.error.CaptureFailed? && !r.error.CaptureLimitExceeded?)
  }

  ghost predicate HasEvidence(e: Error) {
    !e.DeadlineOverflow? && !e.SpawnFailed? && !e.SupervisorStartFailed? && !e.ReaperStartFailed?
  }

  ghost predicate Truthful(k: Core, e: LifecycleEvidence) {
    && e.leaderStatus == k.status
    && Some(e.signal) == k.signal
    && e.reap == LeaderReapOutcome(k.disposition, k.seen.reapFailures)
    && (e.cleanup.CleanupComplete? <==> k.disposition.Reaped?)
    && !e.cleanup.CleanupUnknown?
  }

  ghost predicate Genuine(s: System, r: RunResult) {
    s.core.Some? && Parted(s.core.value) && FromCore(s.core.value, r)
  }

  /** Every result in the system is the one the supervisor built, or the report of its loss. */
  ghost predicate ResultsGenuine(s: System) {
    && (s.at.Deliver? ==> Genuine(s, s.at.result))
    && (s.at.DropSignal? && s.at.after.ThenDeliver? ==> Genuine(s, s.at.after.result))
    && (s.at.DropOffer? && s.at.after.ThenDeliver? ==> Genuine(s, s.at.after.result))
    && (s.result.queue != [] ==> Genuine(s, s.result.queue[0]))
    && (Received(s.caller).Some? ==>
          || (Genuine(s, Received(s.caller).value) && s.resultsSent == 1)
          || (Received(s.caller).value == CHANNEL_FAILURE && s.at.Ended? && s.resultsSent == 0))
  }

  /** Where the child is once the reaper has been offered it. */
  ghost predicate ReaperSound(s: System) {
    && (s.handoff.receiver <==> s.reaper.Idle? || s.reaper.HoldsChild?)
    && |s.handoff.queue| <= 1
    && (s.handoff.queue != [] ==> s.reaper.Idle?)
    && (s.at.Ended? ==> !s.handoff.sender)
    && (s.core.None? ==> s.handoff.queue == [] && !s.reaper.HoldsChild?)
    && (s.core.Some? ==>
          var h := s.core.value.owned.history;
          && (Has(h, ReaperWait) ==> Has(h, Acceptance))
          && (Has(h, AnyReap) ==> Has(h, SupervisorReap) || Has(h, ReaperWait))
          && (s.handoff.queue != [] || s.reaper.HoldsChild? <==> Has(h, Acceptance) && !Has(h, ReaperWait))
          && !(s.handoff.queue != [] && s.reaper.HoldsChild?)
          && (Has(h, SupervisorReap) ==> !Has(h, ReaperWait)))
  }

  /** The recorded failures are the first ones of the history; a drop may add to the history alone. */
  ghost predicate FailuresSound(s: System) {
    s.core.Some? ==> s.core.value.seen.reapFailures <= FailuresIn(s.core.value.owned.history)
  }

  ghost predicate SystemSound(s: System) {
    && StartupSound(s) && ResultSound(s) && CancelSound(s) && ChildSound(s) && ReaperSound(s) && ResultsGenuine(s)
    && FailuresSound(s)
  }

  // ---------------------------------------------------------------------------------------------
  // Preservation.

  predicate Starts(l: Label) {
    l.StartReaper? || l.ArmDeadline? || l.SpawnChild? || l.SendStartup?
  }

  predicate Looks(l: Label) {
    l.LookAtLeader? || l.TryCancel? || l.SampleClock? || l.ReceiveCancel? || l.CheckBudget?
  }

  predicate Ends(l: Label) {
    l.SendResult? || l.Quit? || l.Panic?
  }

  lemma CallerKeepsStartup(s: System, l: Label)
    requires StartupSound(s) && CallerEnabled(s, l)
    ensures StartupSound(CallerStep(s, l))
  {
  }

  lemma CallerKeepsResult(s: System, l: Label)
    requires StartupSound(s) && ResultSound(s) && CallerEnabled(s, l)
    ensures ResultSound(CallerStep(s, l))
  {
  }

  lemma CallerKeepsCancel(s: System, l: Label)
    requires CancelSound(s) && CallerEnabled(s, l)
    ensures CancelSound(CallerStep(s, l))
  {
  }

  lemma CallerKeepsChild(s: System, l: Label)
    requires ChildSound(s) && ReaperSound(s) && CallerEnabled(s, l)
    ensures ChildSound(CallerStep(s, l)) && ReaperSound(CallerStep(s, l))
    ensures CallerStep(s, l).core == s.core && CallerStep(s, l).at == s.at
  {
  }

  lemma JoinKeepsGenuine(s: System)
    requires ResultSound(s) && ResultsGenuine(s) && CallerEnabled(s, JoinSupervisor)
    ensures ResultsGenuine(CallerStep(s, JoinSupervisor))
  {
  }

  lemma OtherCallKeepsGenuine(s: System, l: Label)
    requires ResultSound(s) && ResultsGenuine(s) && CallerEnabled(s, l) && !l.JoinSupervisor?
    ensures ResultsGenuine(CallerStep(s, l))
  {
  }

  lemma CallerKeepsGenuine(s: System, l: Label)
    requires ResultSound(s) && ResultsGenuine(s) && CallerEnabled(s, l)
    ensures ResultsGenuine(CallerStep(s, l))
  {
    if l.JoinSupervisor? {
      JoinKeepsGenuine(s);
    } else {
      OtherCallKeepsGenuine(s, l);
    }
  }

  lemma StartKeepsStartup(configured: Option<nat>, s: System, l: Label)
    requires StartupSound(s) && SupervisorEnabled(configured, s, l) && Starts(l)
    ensures StartupSound(SupervisorStep(configured, s, l))
  {
  }

  lemma EndKeepsStartup(configured: Option<nat>, s: System, l: Label)
    requires StartupSound(s) && SupervisorEnabled(configured, s, l) && Ends(l)
    ensures StartupSound(SupervisorStep(configured, s, l))
  {
  }

  lemma OtherStepKeepsStartup(configured: Option<nat>, s: System, l: Label)
    requires StartupSound(s) && SupervisorEnabled(configured, s, l) && !Starts(l) && !Ends(l)
    ensures StartupSound(SupervisorStep(configured, s, l))
  {
  }

  lemma SupervisorKeepsStartup(configured: Option<nat>, s: System, l: Label)
    requires StartupSound(s) && SupervisorEnabled(configured, s, l)
    ensures StartupSound(SupervisorStep(configured, s, l))
  {
    if Starts(l) {
      StartKeepsStartup(configured, s, l);
    } else if Ends(l) {
      EndKeepsStartup(configured, s, l);
    } else {
      OtherStepKeepsStartup(configured, s, l);
    }
  }

  lemma EndKeepsResult(configured: Option<nat>, s: System, l: Label)
    requires ResultSound(s) && SupervisorEnabled(configured, s, l) && Ends(l)
    ensures ResultSound(SupervisorStep(configured, s, l))
  {
  }

  lemma SupervisorKeepsResult(configured: Option<nat>, s: System, l: Label)
    requires ResultSound(s) && SupervisorEnabled(configured, s, l)
    ensures ResultSound(SupervisorStep(configured, s, l))
  {
    if Ends(l) {
      EndKeepsResult(configured, s, l);
    }
  }

  lemma StartKeepsCancel(configured: Option<nat>, s: System, l: Label)
    requires CancelSound(s) && (s.at.Spawn? ==> s.core.None?) && SupervisorEnabled(configured, s, l) && Starts(l)
    ensures CancelSound(SupervisorStep(configured, s, l))
  {
  }

  lemma SupervisorKeepsCancel(configured: Option<nat>, s: System, l: Label)
    requires CancelSound(s) && (s.at.Spawn? ==> s.core.None?) && SupervisorEnabled(configured, s, l)
    ensures CancelSound(SupervisorStep(configured, s, l))
  {
    if Starts(l) {
      StartKeepsCancel(configured, s, l);
    }
  }

  lemma ObserveKeepsChild(configured: Option<nat>, s: System, l: Label)
    requires ChildSound(s) && SupervisorEnabled(configured, s, l) && (l.LookAtLeader? || l.CheckBudget?)
    ensures ChildSound(SupervisorStep(configured, s, l))
  {
    ObserveKeeps(s.core.value, l.answer);
  }

  lemma SampleKeepsChild(configured: Option<nat>, s: System, l: Label)
    requires ChildSound(s) && SupervisorEnabled(configured, s, l) && Looks(l) && !l.LookAtLeader? && !l.CheckBudget?
    ensures ChildSound(SupervisorStep(configured, s, l))
  {
    SampleKeeps(s.core.value, s.cancel.CanReceive(), l.SampleClock? && l.passed);
  }

  lemma KillKeepsChild(configured: Option<nat>, s: System, kill: KillReply)
    requires ChildSound(s) && SupervisorEnabled(configured, s, SignalChild(kill)) && s.at.Kill?
    ensures ChildSound(SupervisorStep(configured, s, SignalChild(kill)))
  {
    SignalStartsCleaning(s.core.value, kill);
  }

  lemma DropSignalKeepsChild(configured: Option<nat>, s: System, kill: KillReply)
    requires ChildSound(s) && SupervisorEnabled(configured, s, SignalChild(kill)) && !s.at.Kill?
    ensures ChildSound(SupervisorStep(configured, s, SignalChild(kill)))
  {
  }

  lemma SignalKeepsChild(configured: Option<nat>, s: System, kill: KillReply)
    requires ChildSound(s) && SupervisorEnabled(configured, s, SignalChild(kill))
    ensures ChildSound(SupervisorStep(configured, s, SignalChild(kill)))
  {
    if s.at.Kill? {
      KillKeepsChild(configured, s, kill);
    } else {
      DropSignalKeepsChild(configured, s, kill);
    }
  }

  lemma TransferKeepsChild(configured: Option<nat>, s: System)
    requires ChildSound(s) && SupervisorEnabled(configured, s, OfferChild) && s.at.Transfer?
    ensures ChildSound(SupervisorStep(configured, s, OfferChild))
  {
    TransferParts(s.core.value, s.handoff.receiver);
  }

  lemma AbandonedOfferKeepsChild(configured: Option<nat>, s: System)
    requires ChildSound(s) && SupervisorEnabled(configured, s, OfferChild) && s.at.AbandonOffer?
    ensures ChildSound(SupervisorStep(configured, s, OfferChild))
  {
  }

  lemma DropOfferKeepsChild(configured: Option<nat>, s: System)
    requires ChildSound(s) && SupervisorEnabled(configured, s, OfferChild) && s.at.DropOffer?
    ensures ChildSound(SupervisorStep(configured, s, OfferChild))
  {
  }

  lemma OfferKeepsChild(configured: Option<nat>, s: System)
    requires ChildSound(s) && SupervisorEnabled(configured, s, OfferChild)
    ensures ChildSound(SupervisorStep(configured, s, OfferChild))
  {
    if s.at.Transfer? {
      TransferKeepsChild(configured, s);
    } else if s.at.AbandonOffer? {
      AbandonedOfferKeepsChild(configured, s);
    } else {
      DropOfferKeepsChild(configured, s);
    }
  }

  lemma ReapKeepsChild(configured: Option<nat>, s: System, reply: WaitReply)
    requires ChildSound(s) && SupervisorEnabled(configured, s, ReapChild(reply))
    ensures ChildSound(SupervisorStep(configured, s, ReapChild(reply)))
  {
    ReapKeeps(s.core.value, reply);
  }

  lemma StartKeepsChild(configured: Option<nat>, s: System, l: Label)
    requires ChildSound(s) && SupervisorEnabled(configured, s, l) && Starts(l)
    ensures ChildSound(SupervisorStep(configured, s, l))
  {
  }

  lemma BuildKeepsChild(configured: Option<nat>, s: System, elapsed: nat)
    requires ChildSound(s) && SupervisorEnabled(configured, s, BuildResult(elapsed))
    ensures ChildSound(SupervisorStep(configured, s, BuildResult(elapsed)))
  {
  }

  lemma EndKeepsChild(configured: Option<nat>, s: System, l: Label)
    requires ChildSound(s) && SupervisorEnabled(configured, s, l) && Ends(l)
    ensures ChildSound(SupervisorStep(configured, s, l))
  {
  }

  lemma SupervisorKeepsChild(configured: Option<nat>, s: System, l: Label)
    requires ChildSound(s) && SupervisorEnabled(configured, s, l)
    ensures ChildSound(SupervisorStep(configured, s, l))
  {
    if l.LookAtLeader? || l.CheckBudget? {
      ObserveKeepsChild(configured, s, l);
    } else if Looks(l) {
      SampleKeepsChild(configured, s, l);
    } else if l.SignalChild? {
      SignalKeepsChild(configured, s, l.kill);
    } else if l.OfferChild? {
      OfferKeepsChild(configured, s);
    } else if l.ReapChild? {
      ReapKeepsChild(configured, s, l.reply);
    } else if Starts(l) {
      StartKeepsChild(configured, s, l);
    } else if l.BuildResult? {
      BuildKeepsChild(configured, s, l.elapsed);
    } else {
      EndKeepsChild(configured, s, l);
    }
  }

  lemma TransferKeepsReaper(configured: Option<nat>, s: System)
    requires ChildSound(s) && ReaperSound(s) && SupervisorEnabled(configured, s, OfferChild) && s.at.Transfer?
    ensures ReaperSound(SupervisorStep(configured, s, OfferChild))
  {
  }

  lemma AbandonedOfferKeepsReaper(configured: Option<nat>, s: System)
    requires ChildSound(s) && ReaperSound(s) && SupervisorEnabled(configured, s, OfferChild) && s.at.AbandonOffer?
    ensures ReaperSound(SupervisorStep(configured, s, OfferChild))
  {
  }

  lemma DropOfferKeepsReaper(configured: Option<nat>, s: System)
    requires ChildSound(s) && ReaperSound(s) && SupervisorEnabled(configured, s, OfferChild) && s.at.DropOffer?
    ensures ReaperSound(SupervisorStep(configured, s, OfferChild))
  {
  }

  lemma OfferKeepsReaper(configured: Option<nat>, s: System)
    requires ChildSound(s) && ReaperSound(s) && SupervisorEnabled(configured, s, OfferChild)
    ensures ReaperSound(SupervisorStep(configured, s, OfferChild))
  {
    if s.at.Transfer? {
      TransferKeepsReaper(configured, s);
    } else if s.at.AbandonOffer? {
      AbandonedOfferKeepsReaper(configured, s);
    } else {
      DropOfferKeepsReaper(configured, s);
    }
  }

  lemma SignalKeepsReaper(configured: Option<nat>, s: System, kill: KillReply)
    requires ReaperSound(s) && SupervisorEnabled(configured, s, SignalChild(kill))
    ensures ReaperSound(SupervisorStep(configured, s, SignalChild(kill)))
  {
  }

  lemma LookKeepsReaper(configured: Option<nat>, s: System, l: Label)
    requires ReaperSound(s) && SupervisorEnabled(configured, s, l) && Looks(l)
    ensures ReaperSound(SupervisorStep(configured, s, l))
  {
  }

  lemma ReapKeepsReaper(configured: Option<nat>, s: System, reply: WaitReply)
    requires ChildSound(s) && ReaperSound(s) && SupervisorEnabled(configured, s, ReapChild(reply))
    ensures ReaperSound(SupervisorStep(configured, s, ReapChild(reply)))
  {
  }

  lemma OtherStepKeepsReaper(configured: Option<nat>, s: System, l: Label)
    requires ReaperSound(s) && SupervisorEnabled(configured, s, l)
    requires s.at.Boot? || s.at.Spawn? ==> s.core.None?
    requires Starts(l) || Ends(l) || l.BuildResult?
    ensures ReaperSound(SupervisorStep(configured, s, l))
  {
  }

  lemma SupervisorKeepsReaper(configured: Option<nat>, s: System, l: Label)
    requires ChildSound(s) && ReaperSound(s) && SupervisorEnabled(configured, s, l)
    ensures ReaperSound(SupervisorStep(configured, s, l))
  {
    if l.OfferChild? {
      OfferKeepsReaper(configured, s);
    } else if l.SignalChild? {
      SignalKeepsReaper(configured, s, l.kill);
    } else if Looks(l) {
      LookKeepsReaper(configured, s, l);
    } else if l.ReapChild? {
      ReapKeepsReaper(configured, s, l.reply);
    } else {
      OtherStepKeepsReaper(configured, s, l);
    }
  }

  lemma ResultIsGenuine(configured: Option<nat>, k: Core, unsettled: bool, elapsed: nat)
    requires Parted(k) && (unsettled <==> !k.disposition.Reaped?)
    ensures FromCore(k, ManagedResult(configured, k, unsettled, elapsed))
  {
  }

  lemma BuildKeepsGenuine(configured: Option<nat>, s: System, elapsed: nat)
    requires ChildSound(s) && ResultSound(s) && ResultsGenuine(s)
    requires SupervisorEnabled(configured, s, BuildResult(elapsed))
    ensures ResultsGenuine(SupervisorStep(configured, s, BuildResult(elapsed)))
  {
    ResultIsGenuine(configured, s.core.value, s.at.unsettled, elapsed);
  }

  /** Neither step of the drop touches a reported fact. */
  lemma SignalKeepsGenuine(configured: Option<nat>, s: System, kill: KillReply)
    requires ChildSound(s) && ResultSound(s) && ResultsGenuine(s)
    requires SupervisorEnabled(configured, s, SignalChild(kill))
    ensures ResultsGenuine(SupervisorStep(configured, s, SignalChild(kill)))
  {
    SignalKeepsChild(configured, s, kill);
  }

  lemma OfferKeepsGenuine(configured: Option<nat>, s: System)
    requires ChildSound(s) && ResultSound(s) && ResultsGenuine(s) && SupervisorEnabled(configured, s, OfferChild)
    ensures ResultsGenuine(SupervisorStep(configured, s, OfferChild))
  {
    OfferKeepsChild(configured, s);
  }

  /** The steps that change what the supervisor knows all come before there is any result. */
  predicate Early(l: Label) {
    l.SpawnChild? || l.LookAtLeader? || l.TryCancel? || l.SampleClock? || l.ReceiveCancel? || l.CheckBudget? ||
    l.ReapChild?
  }

  lemma EarlyStepKeepsGenuine(configured: Option<nat>, s: System, l: Label)
    requires ResultSound(s) && ResultsGenuine(s) && SupervisorEnabled(configured, s, l) && Early(l)
    ensures ResultsGenuine(SupervisorStep(configured, s, l))
  {
    assert s.resultsSent == 0 && Received(s.caller).None?;
  }

  lemma OtherStepKeepsGenuine(configured: Option<nat>, s: System, l: Label)
    requires ResultSound(s) && ResultsGenuine(s) && SupervisorEnabled(configured, s, l)
    requires !Early(l) && !l.BuildResult? && !l.SignalChild? && !l.OfferChild?
    ensures ResultsGenuine(SupervisorStep(configured, s, l))
  {
    assert SupervisorStep(configured, s, l).core == s.core;
  }

  lemma SupervisorKeepsGenuine(configured: Option<nat>, s: System, l: Label)
    requires ChildSound(s) && ResultSound(s) && ResultsGenuine(s) && SupervisorEnabled(configured, s, l)
    ensures ResultsGenuine(SupervisorStep(configured, s, l))
  {
    if l.BuildResult? {
      BuildKeepsGenuine(configured, s, l.elapsed);
    } else if l.SignalChild? {
      SignalKeepsGenuine(configured, s, l.kill);
    } else if l.OfferChild? {
      OfferKeepsGenuine(configured, s);
    } else if Early(l) {
      EarlyStepKeepsGenuine(configured, s, l);
    } else {
      OtherStepKeepsGenuine(configured, s, l);
    }
  }

  lemma SettlingKeepsFailures(configured: Option<nat>, s: System, l: Label)
    requires ChildSound(s) && FailuresSound(s) && SupervisorEnabled(configured, s, l)
    requires l.ReapChild? || l.OfferChild?
    ensures FailuresSound(SupervisorStep(configured, s, l))
  {
  }

  lemma SupervisorKeepsFailures(configured: Option<nat>, s: System, l: Label)
    requires ChildSound(s) && FailuresSound(s) && SupervisorEnabled(configured, s, l)
    ensures FailuresSound(SupervisorStep(configured, s, l))
  {
    if l.ReapChild? || l.OfferChild? {
      SettlingKeepsFailures(configured, s, l);
    }
  }

  lemma ReaperWaitKeepsOwned(s: System, reply: WaitReply)
    requires SystemSound(s) && ReaperEnabled(s, ReaperWaits(reply))
    ensures SoundOwned(Log(s.core.value.owned, Waited(Reaper, reply)))
    ensures Parted(s.core.value) ==> Parted(ReaperStep(s, ReaperWaits(reply)).core.value)
    ensures !s.core.value.owned.child
  {
    ReaperMayWait(s.core.value.owned.history, reply);
  }

  lemma ReaperKeepsChannels(s: System, l: Label)
    requires SystemSound(s) && ReaperEnabled(s, l)
    ensures StartupSound(ReaperStep(s, l)) && ResultSound(ReaperStep(s, l)) && CancelSound(ReaperStep(s, l))
    ensures ReaperSound(ReaperStep(s, l))
  {
    if l.ReaperWaits? {
      ReaperWaitKeepsOwned(s, l.reply);
    }
  }

  lemma ReaperKeepsChild(s: System, l: Label)
    requires SystemSound(s) && ReaperEnabled(s, l)
    ensures ChildSound(ReaperStep(s, l))
  {
    if l.ReaperWaits? {
      ReaperWaitKeepsOwned(s, l.reply);
    }
  }

  lemma ReaperKeepsGenuine(s: System, l: Label)
    requires SystemSound(s) && ReaperEnabled(s, l)
    ensures ResultsGenuine(ReaperStep(s, l))
  {
    if l.ReaperWaits? {
      ReaperWaitKeepsOwned(s, l.reply);
    }
  }

  // ---------------------------------------------------------------------------------------------
  // Reachable states.

  lemma InitialSound()
    ensures SystemSound(INITIAL)
  {
  }

  lemma StepKeeps(configured: Option<nat>, s: System, l: Label)
    requires SystemSound(s) && Enabled(configured, s, l)
    ensures SystemSound(Step(configured, s, l))
  {
    if ActorOf(l).TheCaller? {
      CallerKeepsStartup(s, l);
      CallerKeepsResult(s, l);
      CallerKeepsCancel(s, l);
      CallerKeepsChild(s, l);
      CallerKeepsGenuine(s, l);
    } else if ActorOf(l).TheSupervisor? {
      SupervisorKeepsStartup(configured, s, l);
      SupervisorKeepsResult(configured, s, l);
      SupervisorKeepsCancel(configured, s, l);
      SupervisorKeepsChild(configured, s, l);
      SupervisorKeepsReaper(configured, s, l);
      SupervisorKeepsGenuine(configured, s, l);
      SupervisorKeepsFailures(configured, s, l);
    } else {
      ReaperKeepsChannels(s, l);
      ReaperKeepsChild(s, l);
      ReaperKeepsGenuine(s, l);
    }
  }

  lemma {:induction false} ReachableSound(configured: Option<nat>, schedule: seq<Label>)
    requires After(configured, schedule).Some?
    ensures SystemSound(After(configured, schedule).value)
    decreases |schedule|
  {
    if schedule == [] {
      InitialSound();
    } else {
      var before := schedule[..|schedule| - 1];
      ReachableSound(configured, before);
      StepKeeps(configured, After(configured, before).value, schedule[|schedule| - 1]);
    }
  }

  /** The four places a spawned child can be. */
  datatype Place = WithSupervisor | InTransit | WithReaper | ReapedByNow

  ghost predicate At(s: System, place: Place)
    requires s.core.Some?
  {
    var k := s.core.value;
    match place
    case WithSupervisor => k.owned.child
    case InTransit => s.handoff.queue != []
    case WithReaper => s.reaper.HoldsChild? || (Has(k.owned.history, ReaperWait) && !Has(k.owned.history, AnyReap))
    case ReapedByNow => Has(k.owned.history, AnyReap)
  }

  /**
   * Linear ownership, for every schedule of the three actors: a spawned child is in exactly one
   * place. (A reaper whose `wait` fails is the last to have held it.)
   */
  lemma ChildIsInOnePlace(configured: Option<nat>, schedule: seq<Label>)
    requires After(configured, schedule).Some? && After(configured, schedule).value.core.Some?
    ensures var s := After(configured, schedule).value;
      && (At(s, WithSupervisor) || At(s, InTransit) || At(s, WithReaper) || At(s, ReapedByNow))
      && (forall p, q :: At(s, p) && At(s, q) ==> p == q)
  {
    ReachableSound(configured, schedule);
  }

  /** Kill before reap and no signal after reap, across the three actors, drops and panics. */
  lemma ProtocolIsLawful(configured: Option<nat>, schedule: seq<Label>)
    requires After(configured, schedule).Some? && After(configured, schedule).value.core.Some?
    ensures Lawful(After(configured, schedule).value.core.value.owned.history)
  {
    ReachableSound(configured, schedule);
  }

  /**
   * However the supervisor ends, by returning, by an early refusal or by a panic, a child it spawned
   * has been signalled, and has been reaped or accepted by the reaper unless the reaper refused it.
   */
  lemma NoChildIsForgotten(configured: Option<nat>, schedule: seq<Label>)
    requires After(configured, schedule).Some?
    requires After(configured, schedule).value.at.Ended? && After(configured, schedule).value.core.Some?
    ensures var o := After(configured, schedule).value.core.value.owned;
      && Has(o.history, GroupSignal)
      && (Has(o.history, SupervisorReap) || Has(o.history, Acceptance) || (o.child && Refused(o)))
  {
    ReachableSound(configured, schedule);
    EndedSettles(After(configured, schedule).value);
  }

  lemma EndedSettles(s: System)
    requires ChildSound(s) && s.at.Ended? && s.core.Some?
    ensures var o := s.core.value.owned;
      && Has(o.history, GroupSignal)
      && (Has(o.history, SupervisorReap) || Has(o.history, Acceptance) || (o.child && Refused(o)))
  {
    if !s.core.value.owned.child {
      SettlingFollowsSignal(s.core.value.owned.history);
    }
  }

  /** No send on a channel of capacity one ever has to wait, and each is used at most once. */
  lemma SendsNeverBlock(configured: Option<nat>, schedule: seq<Label>)
    requires After(configured, schedule).Some?
    ensures var s := After(configured, schedule).value;
      && (s.at.Announce? ==> s.startup.CanSend())
      && (s.at.Deliver? ==> s.result.CanSend())
      && (s.at.Transfer? || s.at.AbandonOffer? || s.at.DropOffer? ==> s.handoff.CanSend())
      && s.startupsSent <= 1 && s.resultsSent <= 1
  {
    ReachableSound(configured, schedule);
    HandoffCanSend(After(configured, schedule).value);
  }

  lemma HandoffCanSend(s: System)
    requires SystemSound(s)
    ensures s.at.Transfer? || s.at.AbandonOffer? || s.at.DropOffer? ==> s.core.Some? && s.handoff.queue == []
  {
  }

  /**
   * Nothing blocks for ever: a supervisor that has not ended can always take its next step, whatever
   * the other actors do; and the caller's blocking calls, and the reaper's, resolve no later than its
   * end.
   */
  lemma NobodyIsStuck(configured: Option<nat>, schedule: seq<Label>)
    requires After(configured, schedule).Some?
    ensures var s := After(configured, schedule).value;
      && (!s.at.Ended? ==> SupervisorEnabled(configured, s, NextOf(s)))
      && (s.caller.Starting? && (s.startupsSent == 1 || s.at.Ended?) ==> CallerEnabled(s, ReceiveStartup))
      && (s.caller.Receiving? && (s.resultsSent == 1 || s.at.Ended?) ==> CallerEnabled(s, ReceiveResult))
      && (s.caller.Joining? && s.at.Ended? ==> CallerEnabled(s, JoinSupervisor))
      && (s.caller.JoiningFailed? && s.at.Ended? ==> CallerEnabled(s, JoinFailed))
      && (s.reaper.Idle? && s.at.Ended? ==> ReaperEnabled(s, ReaperReceives))
  {
    ReachableSound(configured, schedule);
    HandoffCanSend(After(configured, schedule).value);
  }

  /** A step the supervisor can take from each point, under some answer of the kernel. */
  function NextOf(s: System): Label {
    match s.at
    case Boot => StartReaper(None)
    case Arm => ArmDeadline(true)
    case Spawn => SpawnChild(None)
    case Announce(_) => SendStartup
    case Look => LookAtLeader(StillRunning)
    case AskCancel => TryCancel
    case AskClock => SampleClock(false)
    case Listen | ListenAgain => ReceiveCancel
    case Kill | AbandonSignal | DropSignal(_) => SignalChild(Delivered)
    case Guard => CheckBudget(true, StillRunning)
    case Reap => ReapChild(WaitReply.Exited(ExitStatus(0)))
    case Transfer | AbandonOffer | DropOffer(_) => OfferChild
    case Conclude(_) => BuildResult(0)
    case Deliver(_) => SendResult
    case Leaving => Quit
    case Ended(_) => Quit
  }

  lemma HeldResultIsNotCancelled(s: System)
    requires SystemSound(s) && Received(s.caller).Some? && !Asked(s.caller)
    ensures var r := Received(s.caller).value; !(r.Err? && r.error.Cancelled?)
  {
  }

  /** A caller that only polls and waits never receives `Cancelled`. */
  lemma WaitIsNeverCancelled(configured: Option<nat>, schedule: seq<Label>)
    requires After(configured, schedule).Some?
    requires var s := After(configured, schedule).value; s.caller.Returned? && s.caller.mode.Waits?
    ensures var r := After(configured, schedule).value.caller.result; !(r.Err? && r.error.Cancelled?)
  {
    ReachableSound(configured, schedule);
    HeldResultIsNotCancelled(After(configured, schedule).value);
  }

  /** The loss of the supervisor is reported exactly when it never sent a result. */
  lemma OnlyAnUnsentResultIsLost(configured: Option<nat>, schedule: seq<Label>)
    requires After(configured, schedule).Some?
    requires Received(After(configured, schedule).value.caller).Some?
    ensures var s := After(configured, schedule).value;
      Received(s.caller).value == CHANNEL_FAILURE <==> s.resultsSent == 0
  {
    ReachableSound(configured, schedule);
    GenuineIsNotALoss(After(configured, schedule).value);
  }

  lemma GenuineIsNotALoss(s: System)
    requires SystemSound(s) && Received(s.caller).Some?
    ensures Received(s.caller).value == CHANNEL_FAILURE <==> s.resultsSent == 0
  {
  }

  /** A poll shows `Running` exactly while nothing was sent and the supervisor has not ended. */
  lemma PollSeesWhatWasSent(configured: Option<nat>, schedule: seq<Label>)
    requires After(configured, schedule).Some? && After(configured, schedule).value.caller.Holding?
    ensures var s := After(configured, schedule).value; var t := CallerStep(s, PollOnce);
      && t.caller.Holding?
      && (View(t.caller.handle).Running? <==> s.resultsSent == 0 && !s.at.Ended?)
  {
    ReachableSound(configured, schedule);
    PollTakesTheResult(After(configured, schedule).value);
  }

  lemma PollTakesTheResult(s: System)
    requires ResultSound(s) && s.caller.Holding?
    ensures var t := CallerStep(s, PollOnce);
      && t.caller.Holding?
      && (View(t.caller.handle).Running? <==> s.resultsSent == 0 && !s.at.Ended?)
  {
  }

  /** Nor does any poll show it, as long as the handle is held. */
  lemma PollIsNeverCancelled(configured: Option<nat>, schedule: seq<Label>)
    requires After(configured, schedule).Some? && After(configured, schedule).value.caller.Holding?
    ensures var view := View(After(configured, schedule).value.caller.handle);
      !(view.Failed? && view.error.Cancelled?)
  {
    ReachableSound(configured, schedule);
    var s := After(configured, schedule).value;
    if s.caller.handle.result.Some? {
      HeldResultIsNotCancelled(s);
    }
  }

  /**
   * Whatever the interleaving, a `cancel` that returns `Ok` returns settled evidence of a child the
   * supervisor itself reaped, after the group signal it reports.
   */
  lemma CancelOkIsSettled(configured: Option<nat>, schedule: seq<Label>)
    requires After(configured, schedule).Some?
    requires var s := After(configured, schedule).value;
      s.caller.Returned? && s.caller.mode.Cancels? && CancelOutcome(s.caller.result).Ok?
    ensures var s := After(configured, schedule).value; var e := CancelOutcome(s.caller.result).value;
      && CancellationSettled(e)
      && s.core.Some?
      && Has(s.core.value.owned.history, SupervisorReap)
      && e.leaderStatus == ReapedStatus(s.core.value.owned.history)
  {
    ReachableSound(configured, schedule);
  }

  /**
   * Whatever a caller receives is truthful about the child, at the time and ever after: no later drop,
   * reap or panic falsifies it. The one other report is that the supervisor was lost.
   */
  lemma ReceivedEvidenceIsTruthful(configured: Option<nat>, schedule: seq<Label>)
    requires After(configured, schedule).Some?
    requires Received(After(configured, schedule).value.caller).Some?
    requires Received(After(configured, schedule).value.caller).value != CHANNEL_FAILURE
    ensures var s := After(configured, schedule).value; var r := Received(s.caller).value;
      && s.core.Some? && (r.Err? ==> HasEvidence(r.error))
      && var e := if r.Ok? then r.value.evidence else r.error.evidence;
         var h := s.core.value.owned.history;
         && e.leaderStatus == ReapedStatus(h)
         && FirstKill(h).Some? && Tells(e.signal, FirstKill(h).value)
         && e.reap.failures <= FailuresIn(h)
         && (e.reap.disposition.Reaped? <==> Has(h, SupervisorReap))
         && (e.reap.disposition.BackgroundReaper? <==> Has(h, Acceptance))
         && (e.reap.disposition.Unreaped? <==> s.core.value.owned.child)
         && (e.cleanup.CleanupComplete? ==> e.reap.disposition.Reaped?)
  {
    ReachableSound(configured, schedule);
    HeldHistoryTells(After(configured, schedule).value);
  }

  lemma HeldHistoryTells(s: System)
    requires s.core.Some?
    ensures var h := s.core.value.owned.history;
      && (FirstSignal(h).Some? <==> FirstKill(h).Some?)
      && (FirstSignal(h).Some? ==> Tells(FirstSignal(h).value, FirstKill(h).value))
  {
    FirstSignalTells(s.core.value.owned.history);
  }
}
