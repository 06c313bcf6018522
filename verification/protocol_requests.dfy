/** What becomes, in every continuation of a schedule, of a request and of a caller that has gone. */
module ProtocolRequests {
  import opened Base
  import opened Outcome
  import opened Lifecycle
  import opened ManagedHandle
  import opened Protocol
  import opened ProtocolTheorems

  lemma AfterOneMore(configured: Option<nat>, before: seq<Label>, more: seq<Label>)
    requires more != [] && After(configured, before + more).Some?
    ensures var init := more[..|more| - 1]; var l := more[|more| - 1];
      && After(configured, before + init).Some?
      && Enabled(configured, After(configured, before + init).value, l)
      && After(configured, before + more).value == Step(configured, After(configured, before + init).value, l)
  {
    assert before + more == (before + more[..|more| - 1]) + [more[|more| - 1]];
    AfterLast(configured, before + more[..|more| - 1], more[|more| - 1]);
  }

  lemma AfterLast(configured: Option<nat>, schedule: seq<Label>, l: Label)
    requires After(configured, schedule + [l]).Some?
    ensures After(configured, schedule).Some? && Enabled(configured, After(configured, schedule).value, l)
    ensures After(configured, schedule + [l]).value == Step(configured, After(configured, schedule).value, l)
  {
    var all := schedule + [l];
    assert all[..|all| - 1] == schedule && all[|all| - 1] == l;
  }

  /** The supervisor is giving the child up without having supervised it, or has done so. */
  ghost predicate GivingUp(at: SupervisorAt) {
    || at.Leaving? || at.Ended?
    || (at.DropSignal? && !at.after.ThenDeliver?)
    || (at.DropOffer? && !at.after.ThenDeliver?)
  }

  // ---------------------------------------------------------------------------------------------
  // A caller that was gone before the startup message.

  ghost predicate Abandoning(at: SupervisorAt) {
    BeforeStartup(at) || at.AbandonSignal? || at.AbandonOffer? || GivingUp(at)
  }

  ghost predicate Unserved(s: System) {
    && s.caller.Vanished? && Abandoning(s.at) && s.resultsSent == 0
    && (s.core.Some? ==>
          !Has(s.core.value.owned.history, AnyObservation) && !Has(s.core.value.owned.history, SupervisorWait))
  }

  lemma AnnouncementIsLost(configured: Option<nat>, s: System, l: Label)
    requires StartupSound(s) && ChildSound(s) && Unserved(s) && SupervisorEnabled(configured, s, l) && Starts(l)
    ensures Unserved(SupervisorStep(configured, s, l))
  {
  }

  lemma HandoverLeavesUnserved(configured: Option<nat>, s: System, l: Label)
    requires ChildSound(s) && Unserved(s) && SupervisorEnabled(configured, s, l) && (l.SignalChild? || l.OfferChild?)
    ensures Unserved(SupervisorStep(configured, s, l))
  {
  }

  lemma SupervisorLeavesUnserved(configured: Option<nat>, s: System, l: Label)
    requires StartupSound(s) && ChildSound(s) && Unserved(s) && SupervisorEnabled(configured, s, l)
    ensures Unserved(SupervisorStep(configured, s, l))
  {
    if Starts(l) {
      AnnouncementIsLost(configured, s, l);
    } else if l.SignalChild? || l.OfferChild? {
      HandoverLeavesUnserved(configured, s, l);
    } else {
      assert Ends(l);
    }
  }

  lemma StepLeavesUnserved(configured: Option<nat>, s: System, l: Label)
    requires SystemSound(s) && Unserved(s) && Enabled(configured, s, l)
    ensures Unserved(Step(configured, s, l))
  {
    if ActorOf(l).TheSupervisor? {
      SupervisorLeavesUnserved(configured, s, l);
    }
  }

  lemma {:induction false} UnservedForGood(configured: Option<nat>, before: seq<Label>, more: seq<Label>)
    requires After(configured, before).Some? && After(configured, before + more).Some?
    requires Unserved(After(configured, before).value)
    ensures Unserved(After(configured, before + more).value)
    decreases |more|
  {
    if more == [] {
      assert before + more == before;
    } else {
      AfterOneMore(configured, before, more);
      var init := more[..|more| - 1];
      UnservedForGood(configured, before, init);
      ReachableSound(configured, before + init);
      StepLeavesUnserved(configured, After(configured, before + init).value, more[|more| - 1]);
    }
  }

  lemma VanishedIsUnserved(s: System)
    requires SystemSound(s) && s.caller.Vanished? && BeforeStartup(s.at)
    ensures Unserved(s)
  {
  }

  lemma UnservedIsSettled(s: System)
    requires ChildSound(s) && Unserved(s) && s.at.Ended? && s.core.Some?
    ensures var o := s.core.value.owned;
      Has(o.history, GroupSignal) && (Has(o.history, Acceptance) || (o.child && Refused(o)))
  {
    EndedSettles(s);
    ReapIsAWait(s.core.value.owned.history);
  }

  lemma {:induction false} ReapIsAWait(h: History)
    ensures Has(h, SupervisorReap) ==> Has(h, SupervisorWait)
  {
    if h.Then? {
      ReapIsAWait(h.past);
    }
  }

  /**
   * Once the caller has vanished before startup, no continuation observes the child, waits for it
   * from the supervisor or sends a result; and when the supervisor has ended, the child it spawned
   * was signalled and has been accepted by the reaper, or refused by it.
   */
  lemma LostCallerIsNotServed(configured: Option<nat>, before: seq<Label>, more: seq<Label>)
    requires After(configured, before).Some? && After(configured, before + more).Some?
    requires var s := After(configured, before).value; s.caller.Vanished? && BeforeStartup(s.at)
    ensures var t := After(configured, before + more).value;
      && Unserved(t)
      && (t.at.Ended? && t.core.Some? ==>
            var o := t.core.value.owned;
            Has(o.history, GroupSignal) && (Has(o.history, Acceptance) || (o.child && Refused(o))))
  {
    ReachableSound(configured, before);
    ReachableSound(configured, before + more);
    VanishedIsUnserved(After(configured, before).value);
    UnservedForGood(configured, before, more);
    var t := After(configured, before + more).value;
    if t.at.Ended? && t.core.Some? {
      UnservedIsSettled(t);
    }
  }

  // ---------------------------------------------------------------------------------------------
  // Requests.

  /** From here the supervisor looks at its cancel channel before it decides anything. */
  ghost predicate LooksFirst(at: SupervisorAt) {
    BeforeStartup(at) || at.Look? || at.AskCancel? || at.Listen? || at.ListenAgain? || at.AbandonSignal? ||
    at.AbandonOffer?
  }

  ghost predicate Noticed(s: System) {
    s.core.Some? && s.core.value.seen.cancelled
  }

  /** The request has been noticed, will be, or outlives a supervision that never reports. */
  ghost predicate Registered(s: System) {
    Asked(s.caller) && (LooksFirst(s.at) || Noticed(s) || (GivingUp(s.at) && s.resultsSent == 0))
  }

  lemma NoticeSticks(configured: Option<nat>, s: System, l: Label)
    requires ChildSound(s) && Noticed(s) && SupervisorEnabled(configured, s, l)
    ensures Noticed(SupervisorStep(configured, s, l))
  {
  }

  lemma NextLookHears(configured: Option<nat>, s: System, l: Label)
    requires CancelSound(s) && Asked(s.caller) && SupervisorEnabled(configured, s, l)
    requires l.TryCancel? || l.ReceiveCancel?
    ensures Noticed(SupervisorStep(configured, s, l))
  {
  }

  lemma SupervisorKeepsRequest(configured: Option<nat>, s: System, l: Label)
    requires ResultSound(s) && CancelSound(s) && ChildSound(s)
    requires Registered(s) && SupervisorEnabled(configured, s, l)
    ensures Registered(SupervisorStep(configured, s, l))
  {
    if Noticed(s) {
      NoticeSticks(configured, s, l);
    } else if l.TryCancel? || l.ReceiveCancel? {
      NextLookHears(configured, s, l);
    } else {
      UnnoticedStep(configured, s, l);
    }
  }

  lemma UnnoticedStep(configured: Option<nat>, s: System, l: Label)
    requires ResultSound(s) && ChildSound(s)
    requires LooksFirst(s.at) || (GivingUp(s.at) && s.resultsSent == 0)
    requires SupervisorEnabled(configured, s, l) && !l.TryCancel? && !l.ReceiveCancel?
    ensures var t := SupervisorStep(configured, s, l);
      LooksFirst(t.at) || (GivingUp(t.at) && t.resultsSent == 0)
  {
  }

  lemma StepKeepsRequest(configured: Option<nat>, s: System, l: Label)
    requires SystemSound(s) && Registered(s) && Enabled(configured, s, l)
    ensures Registered(Step(configured, s, l))
  {
    if ActorOf(l).TheSupervisor? {
      SupervisorKeepsRequest(configured, s, l);
    }
  }

  ghost predicate IsCancelled(r: RunResult) {
    r.Err? && r.error.Cancelled?
  }

  lemma RegisteredDecides(s: System)
    requires SystemSound(s) && Registered(s)
    ensures s.resultsSent == 1 ==> Noticed(s)
    ensures s.at.Deliver? ==> IsCancelled(s.at.result)
    ensures s.result.queue != [] ==> IsCancelled(s.result.queue[0])
    ensures Received(s.caller).Some? ==>
              IsCancelled(Received(s.caller).value) || Received(s.caller).value == CHANNEL_FAILURE
  {
  }

  /**
   * A request is never lost: from a cancel, a dropped handle or a vanished caller that came before
   * the supervisor's next look, every continuation delivers `Cancelled` or, if the supervisor never
   * reports, the loss of its channel. No other result is sent, queued or received.
   */
  lemma {:induction false} RequestsAreHeard(configured: Option<nat>, before: seq<Label>, more: seq<Label>)
    requires After(configured, before).Some? && After(configured, before + more).Some?
    requires Asked(After(configured, before).value.caller) && LooksFirst(After(configured, before).value.at)
    ensures var t := After(configured, before + more).value;
      && Registered(t)
      && (t.resultsSent == 1 ==> Noticed(t))
      && (t.at.Deliver? ==> IsCancelled(t.at.result))
      && (t.result.queue != [] ==> IsCancelled(t.result.queue[0]))
      && (Received(t.caller).Some? ==>
            IsCancelled(Received(t.caller).value) || Received(t.caller).value == CHANNEL_FAILURE)
    decreases |more|
  {
    ReachableSound(configured, before + more);
    if more == [] {
      assert before + more == before;
    } else {
      AfterOneMore(configured, before, more);
      var init := more[..|more| - 1];
      RequestsAreHeard(configured, before, init);
      ReachableSound(configured, before + init);
      StepKeepsRequest(configured, After(configured, before + init).value, more[|more| - 1]);
    }
    RegisteredDecides(After(configured, before + more).value);
  }
}
