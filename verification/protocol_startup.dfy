/** What a caller is told when no child comes of its request. */
module ProtocolStartup {
  import opened Base
  import opened Outcome
  import opened Lifecycle
  import opened Protocol
  import opened ProtocolTheorems
  import opened ProtocolRequests

  /** A step of the thread that refuses the request, and the error it must be refused with. */
  predicate RefusesWith(configured: Option<nat>, l: Label, error: Error) {
    || (l.StartReaper? && l.failure.Some? && error == ReaperStartFailed(l.failure.value))
    || (l == ArmDeadline(false) && configured.Some? && error == DeadlineOverflow(configured.value))
    || (l.SpawnChild? && l.failure.Some? && error == SpawnFailed(l.failure.value))
  }

  ghost predicate Reason(configured: Option<nat>, schedule: seq<Label>, error: Error) {
    exists i :: 0 <= i < |schedule| && RefusesWith(configured, schedule[i], error)
  }

  lemma ReasonsRemain(configured: Option<nat>, schedule: seq<Label>, l: Label, error: Error)
    requires Reason(configured, schedule, error) || RefusesWith(configured, l, error)
    ensures Reason(configured, schedule + [l], error)
  {
    var all := schedule + [l];
    if Reason(configured, schedule, error) {
      var i :| 0 <= i < |schedule| && RefusesWith(configured, schedule[i], error);
      assert RefusesWith(configured, all[i], error);
    } else {
      assert RefusesWith(configured, all[|schedule|], error);
    }
  }

  /** The refusal on its way to the caller, wherever it is. */
  ghost function Refusal(s: System): Option<Error> {
    if s.at.Announce? && s.at.message.NotStarted? then Some(s.at.message.error)
    else if s.startup.queue != [] && s.startup.queue[0].NotStarted? then Some(s.startup.queue[0].error)
    else if s.caller.JoiningFailed? then s.caller.reported
    else if s.caller.NotSpawned? then Some(s.caller.error)
    else None
  }

  const LOST_BEFORE_STARTUP := SupervisionFailed(Synthetic(PanickedBeforeStartup), UNKNOWN_EVIDENCE)

  /** The thread ended in a panic before it had announced anything. */
  ghost predicate Unannounced(s: System) {
    s.at == Ended(true) && s.startupsSent == 0
  }

  ghost predicate RefusalExplained(configured: Option<nat>, schedule: seq<Label>, s: System) {
    && (Refusal(s).Some? ==>
          || Reason(configured, schedule, Refusal(s).value)
          || (s.caller.NotSpawned? && Refusal(s).value == LOST_BEFORE_STARTUP && Unannounced(s)))
    && (s.caller == JoiningFailed(None) ==> Unannounced(s))
    && (s.at == Ended(false) ==> s.startupsSent == 1)
    && (s.caller.NotSpawned? || s.at.Leaving? || s.core.Some? ==> !BeforeStartup(s.at) || s.at == Announce(Started))
    && (s.startup.queue != [] && s.startup.queue[0].Started? ==> s.core.Some?)
    && (HasHandle(s.caller) || s.caller.Returned? || s.caller.Dropped? ==> s.core.Some?)
  }

  lemma StartingCallerKeepsRefusal(configured: Option<nat>, schedule: seq<Label>, s: System, l: Label)
    requires StartupSound(s) && RefusalExplained(configured, schedule, s) && CallerEnabled(s, l)
    requires l.ReceiveStartup? || l.JoinFailed? || l.Vanish?
    ensures RefusalExplained(configured, schedule, CallerStep(s, l))
  {
  }

  lemma CallerKeepsRefusal(configured: Option<nat>, schedule: seq<Label>, s: System, l: Label)
    requires StartupSound(s) && RefusalExplained(configured, schedule, s) && CallerEnabled(s, l)
    ensures RefusalExplained(configured, schedule, CallerStep(s, l))
  {
    if l.ReceiveStartup? || l.JoinFailed? || l.Vanish? {
      StartingCallerKeepsRefusal(configured, schedule, s, l);
    }
  }

  lemma StartKeepsRefusal(configured: Option<nat>, schedule: seq<Label>, s: System, l: Label)
    requires SystemSound(s) && RefusalExplained(configured, schedule, s)
    requires SupervisorEnabled(configured, s, l) && Starts(l)
    ensures RefusalExplained(configured, schedule + [l], SupervisorStep(configured, s, l))
  {
    var t := SupervisorStep(configured, s, l);
    if Refusal(t).Some? {
      ReasonsRemain(configured, schedule, l, Refusal(t).value);
    }
  }

  lemma EndKeepsRefusal(configured: Option<nat>, schedule: seq<Label>, s: System, l: Label)
    requires StartupSound(s) && RefusalExplained(configured, schedule, s)
    requires SupervisorEnabled(configured, s, l) && Ends(l)
    ensures RefusalExplained(configured, schedule, SupervisorStep(configured, s, l))
  {
  }

  /** In between, the thread touches neither the startup channel nor the caller. */
  lemma LaterStepIsSilent(configured: Option<nat>, s: System, l: Label)
    requires SupervisorEnabled(configured, s, l) && !Starts(l) && !Ends(l)
    ensures var t := SupervisorStep(configured, s, l);
      && t.caller == s.caller && t.startup.queue == s.startup.queue && t.startupsSent == s.startupsSent
      && s.core.Some? && t.core.Some? && !BeforeStartup(s.at) && !BeforeStartup(t.at) && t.at != Ended(false)
      && s.at != Ended(true)
  {
  }

  lemma LaterStepKeepsRefusal(configured: Option<nat>, schedule: seq<Label>, s: System, l: Label)
    requires StartupSound(s) && RefusalExplained(configured, schedule, s)
    requires SupervisorEnabled(configured, s, l) && !Starts(l)
    ensures RefusalExplained(configured, schedule, SupervisorStep(configured, s, l))
  {
    if Ends(l) {
      EndKeepsRefusal(configured, schedule, s, l);
    } else {
      LaterStepIsSilent(configured, s, l);
      assert Refusal(SupervisorStep(configured, s, l)) == Refusal(s);
    }
  }

  lemma ReaperKeepsRefusal(configured: Option<nat>, schedule: seq<Label>, s: System, l: Label)
    requires RefusalExplained(configured, schedule, s) && ReaperEnabled(s, l)
    ensures RefusalExplained(configured, schedule, ReaperStep(s, l))
  {
  }

  lemma ExplanationRemains(configured: Option<nat>, schedule: seq<Label>, l: Label, s: System)
    requires RefusalExplained(configured, schedule, s)
    ensures RefusalExplained(configured, schedule + [l], s)
  {
    if Refusal(s).Some? && Reason(configured, schedule, Refusal(s).value) {
      ReasonsRemain(configured, schedule, l, Refusal(s).value);
    }
  }

  lemma StepKeepsRefusal(configured: Option<nat>, schedule: seq<Label>, s: System, l: Label)
    requires SystemSound(s) && RefusalExplained(configured, schedule, s) && Enabled(configured, s, l)
    ensures RefusalExplained(configured, schedule + [l], Step(configured, s, l))
  {
    if ActorOf(l).TheCaller? {
      CallerKeepsRefusal(configured, schedule, s, l);
      ExplanationRemains(configured, schedule, l, CallerStep(s, l));
    } else if ActorOf(l).TheReaper? {
      ReaperKeepsRefusal(configured, schedule, s, l);
      ExplanationRemains(configured, schedule, l, ReaperStep(s, l));
    } else if Starts(l) {
      StartKeepsRefusal(configured, schedule, s, l);
    } else {
      LaterStepKeepsRefusal(configured, schedule, s, l);
      ExplanationRemains(configured, schedule, l, SupervisorStep(configured, s, l));
    }
  }

  lemma {:induction false} ReachableRefusal(configured: Option<nat>, schedule: seq<Label>)
    requires After(configured, schedule).Some?
    ensures RefusalExplained(configured, schedule, After(configured, schedule).value)
    decreases |schedule|
  {
    if schedule != [] {
      var before := schedule[..|schedule| - 1];
      var l := schedule[|schedule| - 1];
      assert before + [l] == schedule;
      ReachableRefusal(configured, before);
      ReachableSound(configured, before);
      StepKeepsRefusal(configured, before, After(configured, before).value, l);
    }
  }

  /**
   * A caller that gets no handle is told why: the one thing that failed in the thread, with the
   * kernel's own error, or a panic before anything was announced. A caller that gets one has a child.
   */
  lemma RefusedCallersAreToldWhy(configured: Option<nat>, schedule: seq<Label>)
    requires After(configured, schedule).Some?
    ensures var s := After(configured, schedule).value;
      && (s.caller.NotSpawned? ==>
            || (exists i :: 0 <= i < |schedule| && RefusesWith(configured, schedule[i], s.caller.error))
            || (s.caller.error == LOST_BEFORE_STARTUP && s.startupsSent == 0))
      && (HasHandle(s.caller) || s.caller.Returned? ==> s.core.Some? && Has(s.core.value.owned.history, Spawning))
  {
    ReachableRefusal(configured, schedule);
    ReachableSound(configured, schedule);
  }

  // ---------------------------------------------------------------------------------------------
  // A refusal is final.

  /** No child, no handle, and no other error than the one refused with, unless a panic kept it back. */
  ghost predicate RefusedWith(s: System, error: Error) {
    && s.core.None?
    && (s.at == Announce(NotStarted(error)) || s.at.Leaving? || s.at.Ended?)
    && (s.caller.Starting? || s.caller.JoiningFailed? || s.caller.NotSpawned? || s.caller.Vanished?)
    && (s.startup.queue != [] ==> s.startup.queue[0] == NotStarted(error))
    && (s.caller.JoiningFailed? && s.caller.reported.Some? ==> s.caller.reported.value == error)
    && (s.caller.NotSpawned? ==> s.caller.error == error || (s.caller.error == LOST_BEFORE_STARTUP && Unannounced(s)))
  }

  lemma RefusingStep(configured: Option<nat>, schedule: seq<Label>, s: System, l: Label, error: Error)
    requires SystemSound(s) && RefusalExplained(configured, schedule, s)
    requires Enabled(configured, s, l) && RefusesWith(configured, l, error)
    ensures RefusedWith(Step(configured, s, l), error)
  {
  }

  lemma StepKeepsRefused(configured: Option<nat>, schedule: seq<Label>, s: System, l: Label, error: Error)
    requires SystemSound(s) && RefusalExplained(configured, schedule, s)
    requires RefusedWith(s, error) && Enabled(configured, s, l)
    ensures RefusedWith(Step(configured, s, l), error)
  {
    if ActorOf(l).TheSupervisor? {
      assert l.SendStartup? || Ends(l);
    }
  }

  /**
   * Once the reaper, the deadline or the spawn has failed, every continuation leaves the caller without
   * a handle, and with exactly that error when it is told.
   */
  lemma {:induction false} RefusalIsFinal(configured: Option<nat>, before: seq<Label>, more: seq<Label>, error: Error)
    requires before != [] && RefusesWith(configured, before[|before| - 1], error)
    requires After(configured, before + more).Some?
    ensures RefusedWith(After(configured, before + more).value, error)
    decreases |more|
  {
    if more == [] {
      assert before + more == before;
      ReachableSound(configured, before[..|before| - 1]);
      ReachableRefusal(configured, before[..|before| - 1]);
      RefusingStep(configured, before[..|before| - 1], After(configured, before[..|before| - 1]).value,
                   before[|before| - 1], error);
    } else {
      AfterOneMore(configured, before, more);
      var init := more[..|more| - 1];
      RefusalIsFinal(configured, before, init, error);
      ReachableSound(configured, before + init);
      ReachableRefusal(configured, before + init);
      StepKeepsRefused(configured, before + init, After(configured, before + init).value, more[|more| - 1], error);
    }
  }
}
