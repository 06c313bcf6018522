/**
 * The part of a supervision shared by `execute` and `supervise_managed`: the owned child, what the
 * supervisor has observed, and the history of lifecycle events (supervisor.rs).
 */
module Lifecycle {
  import opened Base
  import opened Outcome

  datatype Actor = Supervisor | Reaper

  /** Answer of `waitid` with EXITED | NOHANG | NOWAIT. */
  datatype Observation = Waitable | StillRunning | ObserveInterrupted | ObserveFailed(error: KernelError)

  /** Answer of the blocking `Child::wait`. */
  datatype WaitReply = Exited(status: ExitStatus) | WaitFailed(error: KernelError)

  /** Answer of `kill` on the process group; `NoSuchGroup` is ESRCH. */
  datatype KillReply = Delivered | NoSuchGroup | KillFailed(error: KernelError)

  datatype Event =
    | Spawned
    | Signal(kill: KillReply)
    | Observed(answer: Observation)
    | Waited(actor: Actor, reply: WaitReply)
    | Offered(accepted: bool)
    | SampledCancel(seen: bool)
    | SampledDeadline(elapsed: bool)

  /** A history is read backwards: its last event, and everything before it. */
  datatype History = Start | Then(past: History, event: Event)

  /** The questions asked of a history. */
  datatype Kind =
    | Spawning
    | GroupSignal
    | AnyReap
    | SupervisorReap
    | SupervisorWait
    | ReaperWait
    | Acceptance
    | Offer
    | AnyObservation
    | PositiveObservation
    | CancelSeen
    | DeadlineSeen

  predicate Is(e: Event, k: Kind) {
    match k
    case Spawning => e.Spawned?
    case GroupSignal => e.Signal?
    case AnyReap => e.Waited? && e.reply.Exited?
    case SupervisorReap => e.Waited? && e.reply.Exited? && e.actor.Supervisor?
    case SupervisorWait => e.Waited? && e.actor.Supervisor?
    case ReaperWait => e.Waited? && e.actor.Reaper?
    case Acceptance => e.Offered? && e.accepted
    case Offer => e.Offered?
    case AnyObservation => e.Observed?
    case PositiveObservation => e.Observed? && e.answer.Waitable?
    case CancelSeen => e.SampledCancel? && e.seen
    case DeadlineSeen => e.SampledDeadline? && e.elapsed
  }

  predicate Has(h: History, k: Kind) {
    h.Then? && (Is(h.event, k) || Has(h.past, k))
  }

  /** What may happen next after `h`. */
  predicate Permitted(h: History, e: Event) {
    match e
    case Spawned => h.Start?
    case Signal(_) => Has(h, Spawning) && !Has(h, AnyReap)
    case Observed(_) =>
      Has(h, Spawning) && !Has(h, AnyReap) && !Has(h, Acceptance) && !Has(h, PositiveObservation)
    case Waited(Supervisor, _) =>
      Has(h, GroupSignal) && !Has(h, AnyReap) && Has(h, PositiveObservation) && !Has(h, Acceptance)
    case Waited(Reaper, _) =>
      Has(h, GroupSignal) && !Has(h, AnyReap) && Has(h, Acceptance)
    case Offered(_) => Has(h, GroupSignal) && !Has(h, AnyReap) && !Has(h, Acceptance) &&
                       (e.accepted ==> !Has(h, Offer))
    case _ => true
  }

  predicate Lawful(h: History) {
    h.Then? ==> Lawful(h.past) && Permitted(h.past, h.event)
  }

  /** The status the supervisor reaped, and the outcome of the first group signal. */
  function ReapedStatus(h: History): Option<ExitStatus> {
    match h
    case Start => None
    case Then(past, event) => if Is(event, SupervisorReap) then Some(event.reply.status) else ReapedStatus(past)
  }

  function FirstSignal(h: History): Option<GroupSignalOutcome> {
    match h
    case Start => None
    case Then(past, event) =>
      if FirstSignal(past).Some? then FirstSignal(past)
      else if event.Signal? then Some(SignalOutcome(event.kill))
      else None
  }

  /** The first answer of `kill`, whatever is made of it. */
  function FirstKill(h: History): Option<KillReply> {
    match h
    case Start => None
    case Then(past, event) =>
      if FirstKill(past).Some? then FirstKill(past)
      else if event.Signal? then Some(event.kill)
      else None
  }

  /** What a reported signal outcome says about the answer of `kill`. */
  ghost predicate Tells(signal: GroupSignalOutcome, kill: KillReply) {
    && (signal.Sent? <==> kill.Delivered?)
    && (signal.AlreadyGone? <==> kill.NoSuchGroup?)
    && (signal.SignalFailed? <==> kill.KillFailed?)
    && (kill.KillFailed? ==> signal == SignalFailed(SignalFailure(kill.error)))
  }

  lemma {:induction false} FirstSignalTells(h: History)
    ensures FirstSignal(h).Some? <==> FirstKill(h).Some?
    ensures FirstSignal(h).Some? ==> Tells(FirstSignal(h).value, FirstKill(h).value)
  {
    if h.Then? {
      FirstSignalTells(h.past);
    }
  }

  /** Everything that went wrong while settling the leader, in order. */
  function FailuresIn(h: History): seq<FailureEvidence> {
    match h
    case Start => []
    case Then(past, Waited(Supervisor, WaitFailed(error))) => FailuresIn(past) + [ReapFailure(error)]
    case Then(past, Offered(false)) => FailuresIn(past) + [ReaperStopped]
    case Then(past, _) => FailuresIn(past)
  }

  function Length(h: History): nat {
    if h.Then? then Length(h.past) + 1 else 0
  }

  function EventAt(h: History, i: nat): Event
    requires i < Length(h)
  {
    if i == Length(h.past) then h.event else EventAt(h.past, i)
  }

  lemma {:induction false} WitnessOf(h: History, k: Kind) returns (i: nat)
    requires Has(h, k)
    ensures i < Length(h) && Is(EventAt(h, i), k)
  {
    if Is(h.event, k) {
      i := Length(h.past);
    } else {
      i := WitnessOf(h.past, k);
    }
  }

  lemma {:induction false} HasByPosition(h: History, i: nat, k: Kind)
    requires i < Length(h) && Is(EventAt(h, i), k)
    ensures Has(h, k)
  {
    if i < Length(h.past) {
      HasByPosition(h.past, i, k);
    }
  }

  function Prefix(h: History, n: nat): History
    requires n <= Length(h)
  {
    if n == Length(h) then h else Prefix(h.past, n)
  }

  lemma {:induction false} PrefixIsBefore(h: History, i: nat)
    requires Lawful(h) && i < Length(h)
    ensures Length(Prefix(h, i)) == i
    ensures Permitted(Prefix(h, i), EventAt(h, i))
    ensures forall j: nat :: j < i ==> EventAt(Prefix(h, i), j) == EventAt(h, j)
  {
    if i < Length(h.past) {
      PrefixIsBefore(h.past, i);
    }
  }

  /**
   * The reading of `Lawful` by position: every wait follows a group signal, and a blocking wait by
   * the supervisor follows a positive non-reaping observation; no signal, observation, wait or offer
   * follows a reap by anyone; the leader is not asked about again once it was waitable; the reaper
   * waits only after it accepted the child; and of all the offers made only the first can be accepted.
   */
  lemma LawfulByPosition(h: History, i: nat)
    requires Lawful(h) && i < Length(h)
    ensures EventAt(h, i).Waited? ==> exists j: nat :: j < i && EventAt(h, j).Signal?
    ensures EventAt(h, i).Waited? && EventAt(h, i).actor.Supervisor? ==>
              exists j: nat :: j < i && EventAt(h, j) == Observed(Waitable)
    ensures EventAt(h, i).Waited? && EventAt(h, i).actor.Reaper? ==>
              exists j: nat :: j < i && EventAt(h, j) == Offered(true)
    ensures EventAt(h, i).Signal? || EventAt(h, i).Observed? || EventAt(h, i).Waited? || EventAt(h, i).Offered? ==>
              forall j: nat :: j < i ==> !Is(EventAt(h, j), AnyReap)
    ensures EventAt(h, i).Observed? ==> forall j: nat :: j < i ==> EventAt(h, j) != Observed(Waitable)
    ensures EventAt(h, i) == Offered(true) ==> forall j: nat :: j < i ==> !EventAt(h, j).Offered?
  {
    var p := Prefix(h, i);
    PrefixIsBefore(h, i);
    var e := EventAt(h, i);
    if e.Waited? {
      var s := WitnessOf(p, GroupSignal);
      assert EventAt(h, s).Signal?;
      if e.actor.Supervisor? {
        var o := WitnessOf(p, PositiveObservation);
        assert EventAt(h, o) == Observed(Waitable);
      } else {
        var a := WitnessOf(p, Acceptance);
        assert EventAt(h, a) == Offered(true);
      }
    }
    forall j: nat | j < i
      ensures Is(EventAt(h, j), AnyReap) ==> Has(p, AnyReap)
      ensures Is(EventAt(h, j), Offer) ==> Has(p, Offer)
      ensures Is(EventAt(h, j), PositiveObservation) ==> Has(p, PositiveObservation)
    {
      assert EventAt(p, j) == EventAt(h, j);
      if Is(EventAt(h, j), AnyReap) {
        HasByPosition(p, j, AnyReap);
      }
      if Is(EventAt(h, j), Offer) {
        HasByPosition(p, j, Offer);
      }
      if Is(EventAt(h, j), PositiveObservation) {
        HasByPosition(p, j, PositiveObservation);
      }
    }
  }

  // ---------------------------------------------------------------------------------------------
  // Values and steps.

  /** `OwnedChild`: whether it still holds the child and the sender to the background reaper. */
  datatype Owned = Owned(child: bool, reaper: bool, history: History)

  datatype Observations = Observations(
    cancelled: bool,
    deadlineElapsed: bool,
    leaderWaitable: bool,
    observeError: Option<KernelError>,
    reapFailures: seq<FailureEvidence>)

  const NOTHING_OBSERVED := Observations(false, false, false, None, [])

  /** A supervision in progress: owned child, observations and the locals of the two supervisors. */
  datatype Core = Core(
    owned: Owned,
    seen: Observations,
    signal: Option<GroupSignalOutcome>,
    status: Option<ExitStatus>,
    disposition: LeaderReapDisposition)

  function Log(o: Owned, e: Event): Owned {
    o.(history := Then(o.history, e))
  }

  function NewOwned(): Owned {
    Owned(true, true, Then(Start, Spawned))
  }

  function NewCore(): Core {
    Core(NewOwned(), NOTHING_OBSERVED, None, None, Unreaped)
  }

  function SignalOutcome(reply: KillReply): GroupSignalOutcome {
    match reply
    case Delivered => Sent
    case NoSuchGroup => AlreadyGone
    case KillFailed(error) => SignalFailed(SignalFailure(error))
  }

  function SignalGroup(k: Core, reply: KillReply): Core {
    k.(owned := Log(k.owned, Signal(reply)), signal := Some(SignalOutcome(reply)))
  }

  /** What `observe_leader` makes of a `waitid` answer. */
  function Note(seen: Observations, answer: Observation): Observations {
    match answer
    case Waitable => seen.(leaderWaitable := true)
    case StillRunning => seen.(leaderWaitable := false)
    case ObserveInterrupted => seen
    case ObserveFailed(error) => seen.(observeError := Some(error))
  }

  function ObserveLeader(k: Core, answer: Observation): Core {
    if k.seen.leaderWaitable || k.seen.observeError.Some? || !k.owned.child then k
    else k.(owned := Log(k.owned, Observed(answer)), seen := Note(k.seen, answer))
  }

  function SampleCancel(k: Core, answer: bool): Core {
    k.(owned := Log(k.owned, SampledCancel(answer)), seen := k.seen.(cancelled := k.seen.cancelled || answer))
  }

  function SampleDeadline(k: Core, elapsed: bool): Core {
    k.(owned := Log(k.owned, SampledDeadline(elapsed)), seen := k.seen.(deadlineElapsed := elapsed))
  }

  /** A `poll` error: only the first observation error is kept. */
  function PollFailed(k: Core, error: KernelError): Core {
    k.(seen := k.seen.(observeError := KeepFirst(k.seen.observeError, error)))
  }

  /** `reap_waitable` on a held child, and what both supervisors do with its answer. */
  function ReapLeader(k: Core, reply: WaitReply): Core {
    var waited := Log(k.owned, Waited(Supervisor, reply));
    match reply
    case Exited(status) =>
      k.(owned := waited.(child := false), status := Some(status), disposition := Reaped)
    case WaitFailed(error) =>
      k.(owned := waited, seen := k.seen.(reapFailures := k.seen.reapFailures + [ReapFailure(error)]))
  }

  /** `handoff_to_background_reaper`: `alive` says whether the reaper still receives. */
  function Handoff(o: Owned, alive: bool): (Owned, Option<FailureEvidence>) {
    if !o.child then (o, None)
    else if !o.reaper then (Log(o, Offered(false)), Some(ReaperUnavailable))
    else if alive then (Owned(false, false, Then(o.history, Offered(true))), None)
    else (Owned(true, false, Then(o.history, Offered(false))), Some(ReaperStopped))
  }

  /** The first refusal is the reaper's; after it there is no sender left to offer the child with. */
  lemma HandoffsFailFor(o: Owned, again: bool)
    requires o.child && o.reaper
    ensures Handoff(o, false).1 == Some(ReaperStopped)
    ensures Handoff(o, true).1.None? && Handoff(Handoff(o, true).0, again) == (Handoff(o, true).0, None)
    ensures Handoff(Handoff(o, false).0, again).1 == Some(ReaperUnavailable)
    ensures Handoff(Handoff(o, false).0, again).0.child
  {
  }

  /** The supervisors' use of it once cleanup is over. */
  function TransferLeader(k: Core, alive: bool): Core {
    if !k.owned.child then k
    else
      var (owned, failure) := Handoff(k.owned, alive);
      match failure
      case None => k.(owned := owned, disposition := BackgroundReaper)
      case Some(f) => k.(owned := owned, seen := k.seen.(reapFailures := k.seen.reapFailures + [f]))
  }

  /** `Drop for OwnedChild`. */
  function DropOwned(o: Owned, reply: KillReply, alive: bool): Owned {
    if !o.child then o else Handoff(Log(o, Signal(reply)), alive).0
  }

  /** A child still held is signalled once more and offered once more; otherwise nothing happens. */
  lemma DropIsExact(o: Owned, reply: KillReply, alive: bool)
    ensures !o.child ==> DropOwned(o, reply, alive) == o
    ensures o.child ==>
              var accepted := o.reaper && alive;
              DropOwned(o, reply, alive)
              == Owned(!accepted, false, Then(Then(o.history, Signal(reply)), Offered(accepted)))
  {
  }

  predicate SettlementTriggered(seen: Observations, overflow: bool, captureFailed: bool) {
    overflow || seen.cancelled || seen.deadlineElapsed || captureFailed || seen.observeError.Some? ||
    seen.leaderWaitable
  }

  // ---------------------------------------------------------------------------------------------
  // The lifecycle invariant.

  /** The history of an owned child, whoever drives it. */
  ghost predicate SoundOwned(o: Owned) {
    && Lawful(o.history)
    && Has(o.history, Spawning)
    && (o.child ==> !Has(o.history, AnyReap) && !Has(o.history, Acceptance))
    && (!o.child ==> Has(o.history, SupervisorReap) || Has(o.history, Acceptance))
    && (o.reaper <==> !Has(o.history, Offer))
    && (Has(o.history, SupervisorReap) ==> Has(o.history, AnyReap) && !Has(o.history, Acceptance))
    && (Has(o.history, SupervisorReap) ==> Has(o.history, SupervisorWait))
    && (Has(o.history, Acceptance) ==> Has(o.history, Offer))
  }

  /** How observations and locals follow from the history while a supervisor runs. */
  ghost predicate Sound(k: Core) {
    var h := k.owned.history;
    && SoundOwned(k.owned)
    && k.signal == FirstSignal(h)
    && (k.signal.Some? <==> Has(h, GroupSignal))
    && (k.signal.Some? ==> !k.signal.value.SignalUnknown?)
    && (k.seen.cancelled <==> Has(h, CancelSeen))
    && (k.seen.leaderWaitable <==> Has(h, PositiveObservation))
    && (Has(h, SupervisorWait) ==> k.seen.leaderWaitable)
    && k.status == ReapedStatus(h)
    && (k.status.Some? <==> Has(h, SupervisorReap))
    && (k.disposition.Reaped? <==> Has(h, SupervisorReap))
    && (k.disposition.BackgroundReaper? <==> Has(h, Acceptance))
    && !k.disposition.DispositionUnknown?
    && (Has(h, SupervisorReap) ==> k.seen.reapFailures == [])
  }

  /** While the cleanup loop may still run: nothing was offered, and no wait has failed. */
  ghost predicate Cleaning(k: Core) {
    && Sound(k)
    && k.signal.Some?
    && k.seen.reapFailures == FailuresIn(k.owned.history)
    && !Has(k.owned.history, Offer)
    && (k.owned.child ==> k.owned.reaper && k.disposition.Unreaped?)
  }

  /** Before the group signal. */
  ghost predicate Watching(k: Core) {
    && Sound(k)
    && k.signal.None?
    && k.owned.child && k.owned.reaper
    && !Has(k.owned.history, Offer)
    && !Has(k.owned.history, SupervisorWait)
    && k.seen.reapFailures == FailuresIn(k.owned.history) == []
    && k.disposition.Unreaped?
  }

  /** After the transfer: the child is reaped, with the reaper, or was refused by it for good. */
  ghost predicate Parted(k: Core) {
    && Sound(k)
    && k.signal.Some?
    && (k.owned.child ==> !k.owned.reaper && Has(k.owned.history, Offer))
    && (k.disposition.Unreaped? <==> k.owned.child)
  }

  lemma ObserveKeeps(k: Core, answer: Observation)
    ensures Watching(k) ==> Watching(ObserveLeader(k, answer))
    ensures Cleaning(k) ==> Cleaning(ObserveLeader(k, answer))
  {
  }

  lemma SampleKeeps(k: Core, cancelled: bool, elapsed: bool)
    ensures Watching(k) ==> Watching(SampleCancel(k, cancelled)) && Watching(SampleDeadline(k, elapsed))
    ensures Cleaning(k) ==> Cleaning(SampleCancel(k, cancelled)) && Cleaning(SampleDeadline(k, elapsed))
  {
  }

  lemma PollFailedKeeps(k: Core, error: KernelError)
    ensures Watching(k) ==> Watching(PollFailed(k, error))
    ensures Cleaning(k) ==> Cleaning(PollFailed(k, error))
  {
  }

  lemma SignalStartsCleaning(k: Core, reply: KillReply)
    requires Watching(k)
    ensures Cleaning(SignalGroup(k, reply)) && SignalGroup(k, reply).seen == k.seen
  {
  }

  lemma ReapKeeps(k: Core, reply: WaitReply)
    requires Cleaning(k) && k.owned.child && k.seen.leaderWaitable && k.seen.reapFailures == []
    ensures Cleaning(ReapLeader(k, reply))
    ensures reply.Exited? <==> !ReapLeader(k, reply).owned.child
  {
  }

  lemma TransferParts(k: Core, alive: bool)
    requires Cleaning(k)
    ensures Parted(TransferLeader(k, alive))
    ensures TransferLeader(k, alive).seen.reapFailures == FailuresIn(TransferLeader(k, alive).owned.history)
    ensures k.owned.child ==>
              (TransferLeader(k, alive).disposition.BackgroundReaper? <==> alive)
    ensures !k.owned.child ==> TransferLeader(k, alive) == k && k.disposition.Reaped?
  {
  }

  /** `Drop` after a transfer changes neither who holds the child nor any reported fact. */
  lemma DropAfterTransfer(k: Core, reply: KillReply, alive: bool)
    requires Parted(k)
    ensures var o := DropOwned(k.owned, reply, alive);
      && SoundOwned(o) && o.child == k.owned.child && Parted(k.(owned := o))
      && (Has(o.history, Acceptance) <==> Has(k.owned.history, Acceptance))
      && (Has(o.history, SupervisorReap) <==> Has(k.owned.history, SupervisorReap))
  {
    if k.owned.child {
      var signalled := k.(owned := Log(k.owned, Signal(reply)));
      assert Sound(signalled) && !signalled.owned.reaper;
    }
  }

  /** `Drop` samples nothing and leaves the first signal and the supervisor's own reap as they were. */
  lemma DropKeepsFacts(o: Owned, reply: KillReply, alive: bool)
    ensures var h := DropOwned(o, reply, alive).history;
      && (Has(h, CancelSeen) <==> Has(o.history, CancelSeen))
      && (Has(h, DeadlineSeen) <==> Has(o.history, DeadlineSeen))
      && ReapedStatus(h) == ReapedStatus(o.history)
      && (FirstSignal(o.history).Some? ==> FirstSignal(h) == FirstSignal(o.history))
  {
    if o.child {
      var signalled := Log(o, Signal(reply));
      assert ReapedStatus(signalled.history) == ReapedStatus(o.history);
      assert FirstSignal(o.history).Some? ==> FirstSignal(signalled.history) == FirstSignal(o.history);
      assert Has(signalled.history, CancelSeen) == Has(o.history, CancelSeen);
      assert Has(signalled.history, DeadlineSeen) == Has(o.history, DeadlineSeen);
    }
  }

  /** `Drop` while unwinding from a panic: the child ends reaped, with the reaper, or still held. */
  lemma DropKeepsOwned(o: Owned, reply: KillReply, alive: bool)
    requires SoundOwned(o)
    ensures SoundOwned(DropOwned(o, reply, alive))
    ensures o.child && o.reaper && alive ==> Has(DropOwned(o, reply, alive).history, Acceptance)
  {
    if o.child {
      assert SoundOwned(Log(o, Signal(reply)));
    }
  }

  /** What an owner holds is a function of the history: it lost the child to a reap or to the reaper. */
  function HolderOf(h: History): Owned {
    Owned(!Has(h, SupervisorReap) && !Has(h, Acceptance), !Has(h, Offer), h)
  }

  lemma SoundOwnedIsHolder(o: Owned)
    requires SoundOwned(o)
    ensures o == HolderOf(o.history)
  {
  }

  lemma {:induction false} LawfulHistoriesExclude(h: History)
    requires Lawful(h)
    ensures Has(h, AnyReap) ==> Has(h, SupervisorReap) || Has(h, Acceptance)
    ensures Has(h, SupervisorReap) ==> Has(h, AnyReap) && Has(h, SupervisorWait) && !Has(h, Acceptance)
    ensures Has(h, Acceptance) ==> Has(h, Offer)
  {
    if h.Then? {
      LawfulHistoriesExclude(h.past);
    }
  }

  lemma {:induction false} PrefixIsLawful(h: History, n: nat)
    requires Lawful(h) && n <= Length(h)
    ensures Lawful(Prefix(h, n))
  {
    if n < Length(h) {
      PrefixIsLawful(h.past, n);
    }
  }

  /** A panic after any event of a lawful history: the drop of whatever is then held is lawful. */
  lemma PanicIsLawful(h: History, n: nat, reply: KillReply, alive: bool)
    requires Lawful(h) && n <= Length(h) && Has(Prefix(h, n), Spawning)
    ensures Lawful(DropOwned(HolderOf(Prefix(h, n)), reply, alive).history)
  {
    PrefixIsLawful(h, n);
    LawfulHistoriesExclude(Prefix(h, n));
    DropKeepsOwned(HolderOf(Prefix(h, n)), reply, alive);
  }

  /** The background reaper's wait is lawful whenever it comes, however it ends. */
  lemma ReaperMayWait(h: History, reply: WaitReply)
    requires Lawful(h) && Has(h, Acceptance) && !Has(h, AnyReap)
    ensures Lawful(Then(h, Waited(Reaper, reply)))
  {
    SettlingFollowsSignal(h);
  }

  /** Nobody else gets the child, and nobody reaps it, before its group was signalled. */
  lemma {:induction false} SettlingFollowsSignal(h: History)
    requires Lawful(h) && (Has(h, Acceptance) || Has(h, SupervisorReap))
    ensures Has(h, GroupSignal)
  {
    if Has(h.past, Acceptance) || Has(h.past, SupervisorReap) {
      SettlingFollowsSignal(h.past);
    }
  }

  /** `leader_waitable` and the first observation error, once recorded, are never lost. */
  lemma ObservationsStick(k: Core, answer: Observation, error: KernelError)
    ensures k.seen.leaderWaitable ==> ObserveLeader(k, answer) == k
    ensures k.seen.observeError.Some? ==>
              ObserveLeader(k, answer) == k && PollFailed(k, error) == k
  {
  }

  // ---------------------------------------------------------------------------------------------
  // The imperative owned child and observations.

  class OwnedChild {
    var child: bool
    var reaper: bool
    ghost var history: History

    ghost function View(): Owned
      reads this
    {
      Owned(child, reaper, history)
    }

    constructor ()
      ensures View() == NewOwned()
    {
      child, reaper, history := true, true, Then(Start, Spawned);
    }

    predicate HasChild()
      reads this
    {
      child
    }

    method KillGroup(reply: KillReply)
      modifies this`history
      ensures View() == Log(old(View()), Signal(reply))
    {
      history := Then(history, Signal(reply));
    }

    method LeaderWaitable(answer: Observation) returns (seen: Observation)
      modifies this`history
      ensures old(child) ==> seen == answer && View() == Log(old(View()), Observed(answer))
      ensures !old(child) ==> seen == Waitable && View() == old(View())
    {
      if !child {
        return Waitable;
      }
      history := Then(history, Observed(answer));
      return answer;
    }

    method ReapWaitable(reply: WaitReply) returns (result: Result<ExitStatus, IoError>)
      modifies this
      ensures !old(child) ==> result == Err(Synthetic(AlreadyReaped)) && View() == old(View())
      ensures old(child) && reply.Exited? ==>
                result == Ok(reply.status) && View() == Log(old(View()), Waited(Supervisor, reply)).(child := false)
      ensures old(child) && reply.WaitFailed? ==>
                result == Err(reply.error) && View() == Log(old(View()), Waited(Supervisor, reply))
    {
      if !child {
        return Err(Synthetic(AlreadyReaped));
      }
      history := Then(history, Waited(Supervisor, reply));
      match reply {
        case Exited(status) =>
          child := false;
          result := Ok(status);
        case WaitFailed(error) =>
          result := Err(error);
      }
    }

    method HandoffToBackgroundReaper(alive: bool) returns (failure: Option<FailureEvidence>)
      modifies this
      ensures (View(), failure) == Handoff(old(View()), alive)
    {
      if !child {
        return None;
      }
      child := false;
      if !reaper {
        child := true;
        history := Then(history, Offered(false));
        return Some(ReaperUnavailable);
      }
      reaper := false;
      history := Then(history, Offered(alive));
      if !alive {
        child := true;
        return Some(ReaperStopped);
      }
      return None;
    }

    method Drop(reply: KillReply, alive: bool)
      modifies this
      ensures View() == DropOwned(old(View()), reply, alive)
    {
      if !child {
        return;
      }
      KillGroup(reply);
      var _ := HandoffToBackgroundReaper(alive);
    }
  }

  class ObservationRecord {
    var cancelled: bool
    var deadlineElapsed: bool
    var leaderWaitable: bool
    var observeError: Option<KernelError>
    var reapFailures: seq<FailureEvidence>

    function View(): Observations
      reads this
    {
      Observations(cancelled, deadlineElapsed, leaderWaitable, observeError, reapFailures)
    }

    constructor ()
      ensures View() == NOTHING_OBSERVED
    {
      cancelled, deadlineElapsed, leaderWaitable, observeError, reapFailures := false, false, false, None, [];
    }
  }

  /** The abstract value of the objects a supervisor works on. */
  ghost function CoreOf(owned: OwnedChild, seen: ObservationRecord, signal: Option<GroupSignalOutcome>,
                        status: Option<ExitStatus>, disposition: LeaderReapDisposition): Core
    reads owned, seen
  {
    Core(owned.View(), seen.View(), signal, status, disposition)
  }

  method Observe(owned: OwnedChild, seen: ObservationRecord, answer: Observation)
    modifies owned`history, seen
    ensures forall g, s, d :: CoreOf(owned, seen, g, s, d) == ObserveLeader(old(CoreOf(owned, seen, g, s, d)), answer)
  {
    if seen.leaderWaitable || seen.observeError.Some? || !owned.HasChild() {
      return;
    }
    var waitable := owned.LeaderWaitable(answer);
    match waitable {
      case Waitable => seen.leaderWaitable := true;
      case StillRunning => seen.leaderWaitable := false;
      case ObserveInterrupted =>
      case ObserveFailed(error) => seen.observeError := Some(error);
    }
  }
}
