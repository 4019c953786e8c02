/** No reachable state of the desktop protocol is stuck: the token can always come
    back, and a desktop that is stopping can always become free. */
module DesktopProgress {
  import opened Basics
  import opened Coordination
  import opened DesktopGate
  import opened DesktopGateSafety
  import opened BrowserBridge
  import opened BridgeSafety
  import opened DesktopProtocol
  import opened DesktopTheorems

  /** The state that the events lead to, None if one of them cannot happen. */
  function After(s: System, es: seq<SystemEvent>): Option<System>
    decreases |es|
  {
    if es == [] then Some(s)
    else match Next(s, es[0])
      case None => None
      case Some(s') => After(s', es[1..])
  }

  ghost predicate Leads(s: System, s': System) { exists es :: After(s, es) == Some(s') }

  lemma LeadsToItself(s: System)
    ensures Leads(s, s)
  {
    assert After(s, []) == Some(s);
  }

  lemma LeadsBy(s: System, e: SystemEvent, s': System, s'': System)
    requires Next(s, e) == Some(s') && Leads(s', s'')
    ensures Leads(s, s'')
  {
    hide Next;
    var es :| After(s', es) == Some(s'');
    assert ([e] + es)[1..] == es;
    assert After(s, [e] + es) == Some(s'');
  }

  lemma LeadsOn(s: System, s': System, s'': System)
    requires Leads(s, s') && Leads(s', s'')
    ensures Leads(s, s'')
  {
    var es :| After(s, es) == Some(s');
    LeadsAlong(s, es, s', s'');
  }

  lemma {:induction false} LeadsAlong(s: System, es: seq<SystemEvent>, s': System, s'': System)
    requires After(s, es) == Some(s') && Leads(s', s'')
    ensures Leads(s, s'')
    decreases |es|
  {
    hide Next, Leads;
    if es == [] {
    } else {
      LeadsAlong(Next(s, es[0]).value, es[1..], s', s'');
      LeadsBy(s, es[0], Next(s, es[0]).value, s'');
    }
  }

  lemma LeadsByDesk(s: System, e: DeskEvent, d: Desk, s'': System)
    requires DeskNext(s.desk, e) == Some(d) && Leads(s.(desk := d), s'')
    ensures Leads(s, s'')
  {
    hide DeskNext, Leads;
    LeadsBy(s, OfDesk(e), s.(desk := d), s'');
  }

  // The token -----------------------------------------------------------------------------

  /** The token is back; the desktop is as far as it was, or free. */
  predicate Back(s: System, s': System) {
    && s'.desk.gate == 1 && s'.desk.core.closed == s.desk.core.closed
    && (s'.desk.core.status == s.desk.core.status || s'.desk.core.status == Free)
  }

  lemma FromReturning(s: System, t: ThreadId) returns (s': System)
    requires t in s.desk.threads && s.desk.gate == 0
    requires s.desk.threads[t].Returning? || s.desk.threads[t].StopReturning?
    ensures Leads(s, s') && Back(s, s')
  {
    hide Leads;
    var d := DeskNext(s.desk, PutBack(t)).value;
    s' := s.(desk := d);
    LeadsToItself(s');
    LeadsByDesk(s, PutBack(t), d, s');
  }

  lemma FromEnding(s: System, t: ThreadId) returns (s': System)
    requires t in s.desk.threads && s.desk.gate == 0 && s.desk.threads[t].Ending?
    ensures Leads(s, s') && Back(s, s')
  {
    hide Leads;
    var d := DeskNext(s.desk, End(t, 0)).value;
    s' := FromReturning(s.(desk := d), t);
    LeadsByDesk(s, End(t, 0), d, s');
  }

  lemma FromUse(s: System, t: ThreadId) returns (s': System)
    requires t in s.desk.threads && s.desk.gate == 0
    requires s.desk.threads[t].Invalidating? || (s.desk.threads[t].Operating? && s.desk.threads[t].use.Native?)
    ensures Leads(s, s') && Back(s, s')
  {
    hide Leads;
    var e := if s.desk.threads[t].Invalidating? then Invalidated(t, false) else EndNative(t);
    var d := DeskNext(s.desk, e).value;
    s' := FromEnding(s.(desk := d), t);
    LeadsByDesk(s, e, d, s');
  }

  /** A browser operation that nobody waits for any more goes back. */
  lemma FromAuthorized(s: System, t: ThreadId) returns (s': System)
    requires t in s.desk.threads && s.desk.gate == 0 && s.desk.threads[t].Operating? && s.desk.threads[t].use.Browser?
    ensures Leads(s, s') && Back(s, s')
  {
    hide Leads, DeskNext, BridgeNext;
    var before := Next(s, AuthorizeStore(t, true)).value;
    s' := FromEnding(before, t);
    LeadsBy(s, AuthorizeStore(t, true), before, s');
  }

  /** The result of the call that holds the reservation brings it back. */
  lemma FromParked(s: System, t: ThreadId) returns (s': System)
    requires Reachable(s) && t in s.desk.threads && s.desk.gate == 0 && s.desk.threads[t].Parked?
    ensures Leads(s, s') && Back(s, s')
  {
    hide Leads, Reachable, SystemInv, DeskNext, BridgeNext, ReceiveVerdict;
    ReachableKeepsInvariant(s);
    var c := s.desk.threads[t].call;
    ParkedIsStored(s, t);
    var i := Identity(c, s.bridge.pending[c].browser, s.bridge.pending[c].boot);
    ResultsComeFromTheirGeneration(s, i);
    var before := Next(s, Receive(i)).value;
    ReceivingReleases(s, i, t);
    s' := FromEnding(before, t);
    LeadsBy(s, Receive(i), before, s');
  }

  lemma ParkedIsStored(s: System, t: ThreadId)
    requires SystemInv(s) && t in s.desk.threads && s.desk.threads[t].Parked?
    ensures s.desk.threads[t].call in s.bridge.pending
    ensures s.bridge.pending[s.desk.threads[t].call].release == Some(t)
  {
    hide DeskInv, BridgeInv, OneHandler;
  }

  lemma ReceivingReleases(s: System, i: Identity, t: ThreadId)
    requires Next(s, Receive(i)).Some? && i.call in s.bridge.pending && s.bridge.pending[i.call].release == Some(t)
    requires t in s.desk.threads && s.desk.threads[t].Parked?
    ensures
      var d := Next(s, Receive(i)).value.desk;
      t in d.threads && d.threads[t].Ending? && d.gate == s.desk.gate && d.core == s.desk.core
  {
    hide DeskNext, BridgeNext;
  }

  lemma FromAcquiring(s: System, t: ThreadId) returns (s': System)
    requires t in s.desk.threads && s.desk.gate == 0
    requires s.desk.threads[t].Acquiring? || s.desk.threads[t].BeginHolding?
    ensures Leads(s, s') && Back(s, s')
  {
    hide Leads;
    var e := if s.desk.threads[t].Acquiring? then Admit(t, None, 0) else BeginAbort(t);
    var d := DeskNext(s.desk, e).value;
    s' := FromReturning(s.(desk := d), t);
    LeadsByDesk(s, e, d, s');
  }

  lemma FromResetting(s: System, t: ThreadId) returns (s': System)
    requires t in s.desk.threads && s.desk.gate == 0 && s.desk.threads[t].Resetting?
    ensures Leads(s, s') && Back(s, s')
  {
    hide Leads;
    var d := DeskNext(s.desk, ShowFailed(t, true)).value;
    s' := FromReturning(s.(desk := d), t);
    LeadsByDesk(s, ShowFailed(t, true), d, s');
  }

  lemma FromShowing(s: System, t: ThreadId) returns (s': System)
    requires t in s.desk.threads && s.desk.gate == 0 && s.desk.threads[t].Showing?
    ensures Leads(s, s') && Back(s, s')
  {
    hide Leads;
    var d := DeskNext(s.desk, Shown(t, true)).value;
    s' := FromReturning(s.(desk := d), t);
    LeadsByDesk(s, Shown(t, true), d, s');
  }

  lemma FromStopping(s: System, t: ThreadId) returns (s': System)
    requires t in s.desk.threads && s.desk.gate == 0 && s.desk.threads[t].StopHolding?
    ensures Leads(s, s') && Back(s, s')
  {
    hide Leads;
    var d := DeskNext(s.desk, StopGiveUp(t)).value;
    s' := FromReturning(s.(desk := d), t);
    LeadsByDesk(s, StopGiveUp(t), d, s');
  }

  /** Whoever holds the token can bring it back by steps of its own, a parked
      reservation by the result of its call: nobody has to wait for anybody else. */
  lemma TokenCanComeBack(s: System) returns (s': System)
    requires Reachable(s)
    ensures Leads(s, s') && Back(s, s')
  {
    hide Leads, Reachable, Next, DeskNext, Back;
    OneToken(s);
    if s.desk.gate == 1 {
      s' := s;
      LeadsToItself(s);
      BackItself(s);
    } else {
      var t :| t in s.desk.threads && Holding(s.desk.threads[t]);
      var p := s.desk.threads[t];
      if p.Returning? || p.StopReturning? { s' := FromReturning(s, t); }
      else if p.Ending? { s' := FromEnding(s, t); }
      else if p.Invalidating? || (p.Operating? && p.use.Native?) { s' := FromUse(s, t); }
      else if p.Operating? { s' := FromAuthorized(s, t); }
      else if p.Parked? { s' := FromParked(s, t); }
      else if p.Acquiring? || p.BeginHolding? { s' := FromAcquiring(s, t); }
      else if p.Resetting? { s' := FromResetting(s, t); }
      else if p.Showing? { s' := FromShowing(s, t); }
      else { s' := FromStopping(s, t); }
    }
  }

  lemma BackItself(s: System)
    requires s.desk.gate == 1
    ensures Back(s, s)
  {}

  // A desktop that is stopping ----------------------------------------------------------------

  lemma LeadsReaches(s: System, s': System)
    requires Reachable(s) && Leads(s, s')
    ensures Reachable(s')
  {
    hide Next, Reachable;
    var es :| After(s, es) == Some(s');
    AlongReaches(s, es, s');
  }

  lemma {:induction false} AlongReaches(s: System, es: seq<SystemEvent>, s': System)
    requires Reachable(s) && After(s, es) == Some(s')
    ensures Reachable(s')
    decreases |es|
  {
    hide Next, Reachable;
    if es == [] {
    } else {
      ReachesNext(s, es[0]);
      AlongReaches(Next(s, es[0]).value, es[1..], s');
    }
  }

  lemma {:induction false} UnusedThread(ts: set<ThreadId>) returns (t: ThreadId)
    ensures forall u :: u in ts ==> u < t
    decreases |ts|
  {
    if ts == {} {
      t := 0;
    } else {
      var u := SomeElement(ts);
      t := UnusedThread(ts - {u});
      t := Max(t, u + 1);
      assert forall v :: v in ts ==> v == u || v in ts - {u};
    }
  }

  lemma FromStopWaiting(s: System, t: ThreadId) returns (s': System)
    requires t in s.desk.threads && s.desk.gate == 1 && s.desk.threads[t].StopWaiting? && !s.desk.core.closed
    ensures Leads(s, s') && s'.desk.core.status == Free
  {
    hide Leads;
    var d := DeskNext(s.desk, StopTake(t)).value;
    var d' := DeskNext(d, StopFinish(t)).value;
    s' := s.(desk := d');
    LeadsToItself(s');
    LeadsByDesk(s.(desk := d), StopFinish(t), d', s');
    LeadsByDesk(s, StopTake(t), d, s');
  }

  lemma FromStopReset(s: System, t: ThreadId) returns (s': System)
    requires t in s.desk.threads && s.desk.gate == 1 && s.desk.threads[t].StopReset? && !s.desk.core.closed
    ensures Leads(s, s') && s'.desk.core.status == Free
  {
    hide Leads;
    var d := DeskNext(s.desk, StopResetDone(t, true)).value;
    s' := FromStopWaiting(s.(desk := d), t);
    LeadsByDesk(s, StopResetDone(t, true), d, s');
  }

  lemma FromNoStop(s: System) returns (s': System)
    requires s.desk.gate == 1 && s.desk.stopMutex.None? && s.desk.core.status == Stopping && !s.desk.core.closed
    ensures Leads(s, s') && s'.desk.core.status == Free
  {
    hide Leads;
    var t := UnusedThread(s.desk.threads.Keys);
    var d := DeskNext(s.desk, StopStart(t)).value;
    s' := FromStopReset(s.(desk := d), t);
    LeadsByDesk(s, StopStart(t), d, s');
  }

  lemma StopperWaits(s: System)
    requires Reachable(s) && s.desk.gate == 1 && s.desk.stopMutex.Some?
    ensures s.desk.stopMutex.value in s.desk.threads
    ensures s.desk.threads[s.desk.stopMutex.value].StopReset? || s.desk.threads[s.desk.stopMutex.value].StopWaiting?
  {
    hide Reachable, BridgeInv, Linked, OperationTracked, AuthorityKept, AdmissionHeld, ObservationsOwned,
         EpochsOrdered, ObservationsCurrent, ActedOnce, ReleasedOnce;
    ReachableKeepsInvariant(s);
    var t: ThreadId := s.desk.stopMutex.value;
    assert t in s.desk.threads && Stopper(s.desk.threads[t]) && !Holding(s.desk.threads[t]);
  }

  /** While the coordinator is open, a desktop that is stopping can always become free. */
  lemma StoppingCanEnd(s: System) returns (s': System)
    requires Reachable(s) && s.desk.core.status == Stopping && !s.desk.core.closed
    ensures Leads(s, s') && s'.desk.core.status == Free
  {
    hide Leads, Reachable, Next, DeskNext;
    var before := TokenCanComeBack(s);
    LeadsReaches(s, before);
    if before.desk.core.status == Free {
      s' := before;
    } else if before.desk.stopMutex.None? {
      s' := FromNoStop(before);
      LeadsOn(s, before, s');
    } else {
      StopperWaits(before);
      var t: ThreadId := before.desk.stopMutex.value;
      if before.desk.threads[t].StopReset? {
        s' := FromStopReset(before, t);
      } else {
        s' := FromStopWaiting(before, t);
      }
      LeadsOn(s, before, s');
    }
  }
}
