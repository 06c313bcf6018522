/**
 * The managed protocol as an interleaving of three actors: the caller (spawn_managed and
 * ManagedChild), the supervisor thread (managed_supervisor) and the background reaper. A step is one
 * interaction of one actor with a channel, a thread or the kernel.
 */
module Protocol {
  import opened Base
  import opened Outcome
  import opened Lifecycle
  import opened Classification
  import opened Executor
  import opened ManagedHandle

  /** A channel, with whether its sending and its receiving end are still held. */
  datatype Chan<T> = Chan(queue: seq<T>, sender: bool, receiver: bool) {
    /** A send on a channel of capacity one that would not block. */
    predicate CanSend() {
      !receiver || |queue| < 1
    }

    /** A receive that would not block. */
    predicate CanReceive() {
      queue != [] || !sender
    }

    function Push(message: T): Chan<T> {
      if receiver then this.(queue := queue + [message]) else this
    }

    function Pop(): Chan<T> {
      if queue == [] then this else this.(queue := queue[1..])
    }

    function CloseSender(): Chan<T> {
      this.(sender := false)
    }

    function CloseReceiver(): Chan<T> {
      Chan([], sender, false)
    }
  }

  datatype Startup = Started | NotStarted(error: Error)

  datatype Mode = Waits | Cancels

  datatype Caller =
    | Starting
    | JoiningFailed(reported: Option<Error>)
    | NotSpawned(error: Error)
    | Holding(handle: Handle)
    | Receiving(mode: Mode, handle: Handle)
    | Joining(mode: Mode, handle: Handle, message: Option<RunResult>)
    | Returned(mode: Mode, result: RunResult)
    | Dropped
    | Vanished

  /** What the supervisor goes on to once its owned child has been dropped. */
  datatype AfterDrop = ThenDeliver(result: RunResult) | ThenLeave | ThenUnwind

  datatype SupervisorAt =
    | Boot
    | Arm
    | Spawn
    | Announce(message: Startup)
    | AbandonSignal
    | AbandonOffer
    | Look
    | AskCancel
    | AskClock
    | Listen
    | Kill
    | Guard
    | Reap
    | ListenAgain
    | Transfer
    | Conclude(unsettled: bool)
    | DropSignal(after: AfterDrop)
    | DropOffer(after: AfterDrop)
    | Deliver(result: RunResult)
    | Leaving
    | Ended(panicked: bool)

  datatype ReaperAt = Absent | Idle | HoldsChild | Stopped

  datatype System = System(
    caller: Caller,
    at: SupervisorAt,
    reaper: ReaperAt,
    startup: Chan<Startup>,
    cancel: Chan<()>,
    result: Chan<RunResult>,
    handoff: Chan<()>,
    core: Option<Core>,
    startupsSent: nat,
    resultsSent: nat)

  /** The system right after the supervisor thread has started. */
  const INITIAL := System(Starting, Boot, Absent, Chan([], true, true), Chan([], true, true), Chan([], true, true),
                          Chan([], false, false), None, 0, 0)

  datatype Label =
    // The caller.
    | ReceiveStartup
    | JoinFailed
    | PollOnce
    | CallWait
    | CallCancel
    | ReceiveResult
    | JoinSupervisor
    | DropHandle
    | Vanish
    // The supervisor.
    | StartReaper(failure: Option<KernelError>)
    | ArmDeadline(representable: bool)
    | SpawnChild(failure: Option<KernelError>)
    | SendStartup
    | LookAtLeader(answer: Observation)
    | TryCancel
    | SampleClock(passed: bool)
    | ReceiveCancel
    | SignalChild(kill: KillReply)
    | CheckBudget(expired: bool, answer: Observation)
    | ReapChild(reply: WaitReply)
    | OfferChild
    | BuildResult(elapsed: nat)
    | SendResult
    | Quit
    | Panic
    // The background reaper.
    | ReaperReceives
    | ReaperWaits(reply: WaitReply)
    | ReaperStops

  datatype Who = TheCaller | TheSupervisor | TheReaper

  function ActorOf(l: Label): Who {
    match l
    case ReceiveStartup | JoinFailed | PollOnce | CallWait | CallCancel | ReceiveResult | JoinSupervisor | DropHandle
       | Vanish => TheCaller
    case ReaperReceives | ReaperWaits(_) | ReaperStops => TheReaper
    case _ => TheSupervisor
  }

  // ---------------------------------------------------------------------------------------------
  // The caller.

  predicate CallerEnabled(s: System, l: Label) {
    match l
    case ReceiveStartup => s.caller.Starting? && s.startup.CanReceive()
    case JoinFailed => s.caller.JoiningFailed? && s.at.Ended?
    case PollOnce => s.caller.Holding?
    case CallWait => s.caller.Holding?
    case CallCancel => s.caller.Holding?
    case ReceiveResult => s.caller.Receiving? && (s.caller.handle.result.Some? || s.result.CanReceive())
    case JoinSupervisor => s.caller.Joining? && s.at.Ended?
    case DropHandle => s.caller.Holding?
    case Vanish => s.caller.Starting?
    case _ => false
  }

  /** The caller lets go of everything it holds. */
  function LetGo(s: System, caller: Caller): System {
    s.(caller := caller, startup := s.startup.CloseReceiver(), cancel := s.cancel.CloseSender(),
       result := s.result.CloseReceiver())
  }

  function StartupError(error: Option<Error>, panicked: bool): Error {
    if error.Some? then error.value
    else SupervisionFailed(Synthetic(if panicked then PanickedBeforeStartup else ExitedBeforeStartup), UNKNOWN_EVIDENCE)
  }

  function TryResult(s: System): TryReply {
    if s.result.queue != [] then Got(s.result.queue[0]) else if s.result.sender then Empty else Closed
  }

  function BlockingResult(s: System): Option<RunResult> {
    if s.result.queue != [] then Some(s.result.queue[0]) else None
  }

  function CallerStep(s: System, l: Label): System
    requires CallerEnabled(s, l)
  {
    match l
    case ReceiveStartup =>
      if s.startup.queue == [] then s.(caller := JoiningFailed(None))
      else
        (match s.startup.queue[0]
         case Started => s.(caller := Holding(NEW_HANDLE), startup := s.startup.CloseReceiver())
         case NotStarted(error) => s.(caller := JoiningFailed(Some(error)), startup := s.startup.Pop()))
    case JoinFailed => LetGo(s, NotSpawned(StartupError(s.caller.reported, s.at.panicked)))
    case PollOnce =>
      s.(caller := Holding(ReceiveNonblocking(s.caller.handle, TryResult(s))),
         result := if s.caller.handle.result.Some? then s.result else s.result.Pop())
    case CallWait => s.(caller := Receiving(Waits, s.caller.handle.(stdin := false)))
    case CallCancel => s.(caller := Receiving(Cancels, s.caller.handle.(stdin := false)), cancel := s.cancel.Push(()))
    case ReceiveResult =>
      s.(caller := Joining(s.caller.mode, s.caller.handle, BlockingResult(s)),
         result := if s.caller.handle.result.Some? then s.result else s.result.Pop())
    case JoinSupervisor =>
      LetGo(s, Returned(s.caller.mode, WaitResult(s.caller.handle, s.caller.message, s.at.panicked)))
    case DropHandle =>
      var asked := if s.caller.handle.result.None? then s.(cancel := s.cancel.Push(())) else s;
      LetGo(asked, Dropped)
    case Vanish => LetGo(s, Vanished)
    case _ => s
  }

  // ---------------------------------------------------------------------------------------------
  // The supervisor thread.

  /** The child is an owned local of the supervisor at these points, so a panic drops it. */
  predicate OwnsChild(s: System) {
    && s.core.Some? && s.core.value.owned.child
    && (s.at == Announce(Started) || s.at.AbandonSignal? || s.at.AbandonOffer? || s.at.Look? || s.at.AskCancel?
        || s.at.AskClock? || s.at.Listen? || s.at.Kill? || s.at.Guard? || s.at.Reap? || s.at.ListenAgain?
        || s.at.Transfer? || s.at.Conclude?)
  }

  predicate SupervisorEnabled(configured: Option<nat>, s: System, l: Label) {
    match l
    case StartReaper(_) => s.at.Boot?
    case ArmDeadline(representable) => s.at.Arm? && (representable || configured.Some?)
    case SpawnChild(_) => s.at.Spawn?
    case SendStartup => s.at.Announce? && s.startup.CanSend()
    case LookAtLeader(_) => s.at.Look? && s.core.Some?
    case TryCancel => s.at.AskCancel? && s.core.Some?
    case SampleClock(passed) => s.at.AskClock? && s.core.Some? && (passed ==> configured.Some?)
    case ReceiveCancel => (s.at.Listen? || s.at.ListenAgain?) && s.core.Some?
    case SignalChild(_) => (s.at.Kill? || s.at.AbandonSignal? || s.at.DropSignal?) && s.core.Some?
    case CheckBudget(_, _) => s.at.Guard? && s.core.Some?
    case ReapChild(_) => s.at.Reap? && s.core.Some?
    case OfferChild => (s.at.Transfer? || s.at.AbandonOffer? || s.at.DropOffer?) && s.core.Some? && s.handoff.CanSend()
    case BuildResult(_) => s.at.Conclude? && s.core.Some? && s.core.value.signal.Some?
    case SendResult => s.at.Deliver? && s.result.CanSend()
    case Quit => s.at.Leaving?
    case Panic => !s.at.Ended? && !s.at.DropSignal? && !s.at.DropOffer?
    case _ => false
  }

  /** The thread ends and drops its ends of the channels. */
  function ExitThread(s: System, panicked: bool): System {
    s.(at := Ended(panicked), startup := s.startup.CloseSender(), cancel := s.cancel.CloseReceiver(),
       result := s.result.CloseSender(), handoff := s.handoff.CloseSender())
  }

  /** The owned child has been dropped, with its end of the reaper channel. */
  function GoOn(s: System, after: AfterDrop): System {
    var dropped := s.(handoff := s.handoff.CloseSender());
    match after
    case ThenDeliver(result) => dropped.(at := Deliver(result))
    case ThenLeave => dropped.(at := Leaving)
    case ThenUnwind => ExitThread(dropped, true)
  }

  function DropOrGoOn(s: System, after: AfterDrop): System
    requires s.core.Some?
  {
    if s.core.value.owned.child then s.(at := DropSignal(after)) else GoOn(s, after)
  }

  function WithOwned(s: System, owned: Owned): System
    requires s.core.Some?
  {
    s.(core := Some(s.core.value.(owned := owned)))
  }

  /** The channel side of a handoff: the child travels if it was held, offered and accepted. */
  function HandedOver(s: System, before: Owned): Chan<()> {
    if before.child && before.reaper then s.handoff.Push(()).CloseSender() else s.handoff
  }

  function ManagedEvidence(k: Core, unsettled: bool, elapsed: nat): LifecycleEvidence
    requires k.signal.Some?
  {
    EvidenceOf(k, elapsed, RedirectedReport(Stdout), RedirectedReport(Stderr),
               if unsettled then CleanupPartial([], true) else CleanupComplete)
  }

  function ManagedResult(configured: Option<nat>, k: Core, unsettled: bool, elapsed: nat): RunResult
    requires k.signal.Some?
  {
    ClassifyManaged(ChoosePrimary(k.seen, None, None), configured, ManagedEvidence(k, unsettled, elapsed))
  }

  function SupervisorStep(configured: Option<nat>, s: System, l: Label): System
    requires SupervisorEnabled(configured, s, l)
  {
    match l
    case StartReaper(None) => s.(at := Arm, reaper := Idle, handoff := Chan([], true, true))
    case StartReaper(Some(error)) => s.(at := Announce(NotStarted(ReaperStartFailed(error))))
    case ArmDeadline(representable) =>
      s.(at := if representable then Spawn else Announce(NotStarted(DeadlineOverflow(configured.value))))
    case SpawnChild(None) => s.(at := Announce(Started), core := Some(NewCore()))
    case SpawnChild(Some(error)) => s.(at := Announce(NotStarted(SpawnFailed(error))))
    case SendStartup =>
      s.(at := if s.at.message.NotStarted? then Leaving else if s.startup.receiver then Look else AbandonSignal,
         startup := s.startup.Push(s.at.message), startupsSent := s.startupsSent + 1)
    case LookAtLeader(answer) => s.(at := AskCancel, core := Some(ObserveLeader(s.core.value, answer)))
    case TryCancel =>
      s.(at := AskClock, core := Some(SampleCancel(s.core.value, s.cancel.CanReceive())), cancel := s.cancel.Pop())
    case SampleClock(passed) =>
      var k := SampleDeadline(s.core.value, passed);
      s.(at := if SettlementTriggered(k.seen, false, false) then SupervisorAt.Kill else Listen, core := Some(k))
    case ReceiveCancel =>
      s.(at := if s.at.Listen? then Look else Guard, core := Some(SampleCancel(s.core.value, s.cancel.CanReceive())),
         cancel := s.cancel.Pop())
    case SignalChild(kill) =>
      (match s.at
       case Kill => s.(at := Guard, core := Some(SignalGroup(s.core.value, kill)))
       case DropSignal(after) => WithOwned(s, Log(s.core.value.owned, Signal(kill))).(at := DropOffer(after))
       case _ => WithOwned(s, Log(s.core.value.owned, Signal(kill))).(at := AbandonOffer))
    case CheckBudget(expired, answer) =>
      if expired then s.(at := Transfer)
      else
        var k := ObserveLeader(s.core.value, answer);
        s.(at := if k.seen.leaderWaitable then Reap else ListenAgain, core := Some(k))
    case ReapChild(reply) => s.(at := Transfer, core := Some(ReapLeader(s.core.value, reply)))
    case OfferChild =>
      var k := s.core.value;
      var offered := s.(handoff := HandedOver(s, k.owned));
      (match s.at
       case Transfer => offered.(at := Conclude(k.owned.child), core := Some(TransferLeader(k, s.handoff.receiver)))
       case DropOffer(after) => GoOn(WithOwned(offered, Handoff(k.owned, s.handoff.receiver).0), after)
       case _ => DropOrGoOn(WithOwned(offered, Handoff(k.owned, s.handoff.receiver).0), ThenLeave))
    case BuildResult(elapsed) =>
      DropOrGoOn(s, ThenDeliver(ManagedResult(configured, s.core.value, s.at.unsettled, elapsed)))
    case SendResult =>
      s.(at := Leaving, result := s.result.Push(s.at.result), resultsSent := s.resultsSent + 1)
    case Quit => ExitThread(s, false)
    case Panic => if OwnsChild(s) then s.(at := DropSignal(ThenUnwind)) else ExitThread(s, true)
    case _ => s
  }

  // ---------------------------------------------------------------------------------------------
  // The background reaper. It may stop early, as long as no child has been sent to it.

  predicate ReaperEnabled(s: System, l: Label) {
    match l
    case ReaperReceives => s.reaper.Idle? && s.handoff.CanReceive()
    case ReaperWaits(_) => s.reaper.HoldsChild? && s.core.Some?
    case ReaperStops => s.reaper.Idle? && s.handoff.queue == []
    case _ => false
  }

  function ReaperStep(s: System, l: Label): System
    requires ReaperEnabled(s, l)
  {
    match l
    case ReaperReceives =>
      if s.handoff.queue != [] then s.(reaper := HoldsChild, handoff := s.handoff.Pop())
      else s.(reaper := Stopped, handoff := s.handoff.CloseReceiver())
    case ReaperWaits(reply) =>
      WithOwned(s, Log(s.core.value.owned, Waited(Reaper, reply))).(
        reaper := Stopped, handoff := s.handoff.CloseReceiver())
    case _ => s.(reaper := Stopped, handoff := s.handoff.CloseReceiver())
  }

  // ---------------------------------------------------------------------------------------------
  // Runs.

  predicate Enabled(configured: Option<nat>, s: System, l: Label) {
    match ActorOf(l)
    case TheCaller => CallerEnabled(s, l)
    case TheSupervisor => SupervisorEnabled(configured, s, l)
    case TheReaper => ReaperEnabled(s, l)
  }

  function Step(configured: Option<nat>, s: System, l: Label): System
    requires Enabled(configured, s, l)
  {
    match ActorOf(l)
    case TheCaller => CallerStep(s, l)
    case TheSupervisor => SupervisorStep(configured, s, l)
    case TheReaper => ReaperStep(s, l)
  }

  /** The system after a schedule, if every step of it was possible. */
  function After(configured: Option<nat>, schedule: seq<Label>): Option<System>
    decreases |schedule|
  {
    if schedule == [] then Some(INITIAL)
    else
      var l := schedule[|schedule| - 1];
      match After(configured, schedule[..|schedule| - 1])
      case None => None
      case Some(s) => if Enabled(configured, s, l) then Some(Step(configured, s, l)) else None
  }
}
