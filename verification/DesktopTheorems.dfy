/** The promises of the desktop reservation protocol, over every run. */
module DesktopTheorems {
  import opened Basics
  import opened Coordination
  import opened DesktopGate
  import opened DesktopGateSafety
  import opened BrowserBridge
  import opened BridgeSafety
  import opened DesktopProtocol

  // The token -------------------------------------------------------------------------

  /** The desktop token is in the channel, or with exactly one thread. */
  lemma OneToken(s: System)
    requires Reachable(s)
    ensures
      var d := s.desk;
      || (d.gate == 1 && forall t :: t in d.threads ==> !Holding(d.threads[t]))
      || (d.gate == 0 && exists t ::
            && t in d.threads && Holding(d.threads[t])
            && forall u :: u in d.threads && Holding(d.threads[u]) ==> u == t)
  {
    ReachableKeepsInvariant(s);
    if s.desk.gate == 0 {
      assert Holding(s.desk.threads[s.desk.token.t]);
    }
  }

  /** Whoever owes the token back finds room in the channel of capacity one. */
  lemma PutBackNeverBlocks(s: System, t: ThreadId)
    requires Reachable(s) && t in s.desk.threads
    requires s.desk.threads[t].Returning? || s.desk.threads[t].StopReturning?
    ensures s.desk.gate == 0 && PutBackStep(s.desk, t).Some? && PutBackStep(s.desk, t).value.gate == 1
  {
    ReachableKeepsInvariant(s);
    assert Holding(s.desk.threads[t]);
  }

  lemma OneReservationStored(s: System, a: CallId, b: CallId)
    requires Reachable(s)
    requires a in s.bridge.pending && s.bridge.pending[a].release.Some?
    requires b in s.bridge.pending && s.bridge.pending[b].release.Some?
    ensures a == b
  {
    ReachableKeepsInvariant(s);
    assert Holding(s.desk.threads[s.bridge.pending[a].release.value]);
    assert Holding(s.desk.threads[s.bridge.pending[b].release.value]);
  }

  lemma OnlyAdmitAdmits(d: Desk, e: DeskEvent)
    requires DeskNext(d, e).Some? && DeskNext(d, e).value.log.admitted != d.log.admitted
    ensures e.Admit? && e.t in DeskNext(d, e).value.threads && DeskNext(d, e).value.threads[e.t].Showing?
  {}

  lemma ShowingAlone(s: System, t: ThreadId)
    requires SystemInv(s) && t in s.desk.threads && s.desk.threads[t].Showing?
    ensures forall u :: u in s.desk.threads ==> !Reserved(s.desk.threads[u])
    ensures forall c :: c in s.bridge.pending ==> s.bridge.pending[c].release.None?
    ensures s.desk.core.operation.None?
  {
    assert Holding(s.desk.threads[t]);
    assert forall u :: u in s.desk.threads && Reserved(s.desk.threads[u]) ==> Holding(s.desk.threads[u]);
  }

  /** A new owner is never admitted while an operation begun under an earlier
      control ID or a borrow is in flight, native or in the browser. */
  lemma NewOwnerFindsDesktopIdle(s: System, e: DeskEvent)
    requires Reachable(s) && DeskNext(s.desk, e).Some?
    requires DeskNext(s.desk, e).value.log.admitted != s.desk.log.admitted
    ensures
      var s' := s.(desk := DeskNext(s.desk, e).value);
      && (forall t :: t in s'.desk.threads ==> !Reserved(s'.desk.threads[t]))
      && (forall c :: c in s'.bridge.pending ==> s'.bridge.pending[c].release.None?)
      && s'.desk.core.operation.None?
  {
    hide DeskNext, SystemInv;
    ReachableKeepsInvariant(s);
    DeskStepKeepsInvariant(s, e);
    OnlyAdmitAdmits(s.desk, e);
    ShowingAlone(s.(desk := DeskNext(s.desk, e).value), e.t);
  }

  /** An operation in flight still has the authority it began under (its owner
      owns the desktop; or it borrowed the desktop and the desktop is free), or
      its context has been cancelled. */
  lemma InFlightIsAuthorisedOrCancelled(s: System, t: ThreadId)
    requires Reachable(s) && t in s.desk.threads && InFlight(s.desk.threads[t])
    ensures
      var c := s.desk.core;
      var id := ControlOf(s.desk.threads[t]);
      || t in c.cancelled
      || (!c.closed && if id == NO_CONTROL then c.status == Free else c.status == Owned && c.id == id)
  {
    ReachableKeepsInvariant(s);
  }

  /** Idle expiry never takes the desktop from an operation in flight. */
  lemma ExpiryWaitsForOperations(s: System, now: int)
    requires Reachable(s) && DeskNext(s.desk, Expire(now)).value.core.status != s.desk.core.status
    ensures forall t :: t in s.desk.threads ==> !InFlight(s.desk.threads[t])
  {
    ReachableKeepsInvariant(s);
  }

  /** The steps that count as use of the desktop by its owner: its admission, and
      the beginning and the end of an operation under its control. */
  predicate Renews(d: Desk, e: DeskEvent)
    requires DeskNext(d, e).Some?
  {
    match e
    case Admit(_, _, _) => DeskNext(d, e).value.log.admitted != d.log.admitted
    case BeginEnter(t, _) =>
      t !in d.log.reserved && t in DeskNext(d, e).value.log.reserved && d.threads[t].id != NO_CONTROL
    case End(t, _) => d.core.status == Owned && d.threads[t].id == d.core.id && d.core.id != NO_CONTROL
    case _ => false
  }

  /** An owner has the desktop for five minutes from its last use, and nothing
      else moves the expiry. */
  lemma OwnershipOutlastsUse(s: System, e: DeskEvent)
    requires Reachable(s) && DeskNext(s.desk, e).Some?
    ensures
      var d' := DeskNext(s.desk, e).value;
      && (Renews(s.desk, e) ==> d'.core.expires == e.now + 300)
      && (!Renews(s.desk, e) ==> d'.core.expires == s.desk.core.expires)
  {
    hide SystemInv, Reachable, DeskNext, Renews;
    ReachableKeepsInvariant(s);
    DeskInvOf(s);
    if OfOperation(e) {
      OperationMovesExpiry(s.desk, e);
    } else {
      OtherMovesExpiry(s.desk, e);
    }
  }

  lemma DeskInvOf(s: System)
    requires SystemInv(s)
    ensures DeskInv(s.desk)
  {}

  /** The expiry after a step that renews an ownership, and after any other. */
  ghost predicate MovesExpiry(d: Desk, e: DeskEvent)
    requires DeskNext(d, e).Some?
  {
    DeskNext(d, e).value.core.expires == if Renews(d, e) then e.now + IDLE_TIMEOUT else d.core.expires
  }

  lemma OperationMovesExpiry(d: Desk, e: DeskEvent)
    requires DeskInv(d) && DeskNext(d, e).Some? && OfOperation(e)
    ensures MovesExpiry(d, e)
  {
    hide DeskInv;
    if e.BeginEnter? {
      NewReservation(d, e.t);
    }
  }

  lemma OtherMovesExpiry(d: Desk, e: DeskEvent)
    requires DeskNext(d, e).Some? && !OfOperation(e)
    ensures MovesExpiry(d, e)
  {}

  lemma NewReservation(d: Desk, t: ThreadId)
    requires DeskInv(d) && t in d.threads && d.threads[t].BeginHolding?
    ensures t !in d.log.reserved
  {}

  // The end of an ownership -----------------------------------------------------------

  /** The steps that take the desktop from its owner: its own release, its own
      failed acquisition, idle expiry, a local stop, the end of the coordinator,
      and the last section of a `finishStop`. */
  predicate EndsOwnership(d: Desk, e: DeskEvent) {
    match e
    case Expire(now) => d.core.operation.None? && now >= d.core.expires
    case Release(id) => id == d.core.id && id != NO_CONTROL
    case LocalStop => true
    case Close => true
    case ShowFailed(_, _) => true
    case StopFinish(_) => true
    case _ => false
  }

  /** Exactly these steps end an ownership. A failed acquisition ends only its
      own; a `finishStop` that does began before the owner was admitted, because
      it does not look at the status again once it holds the gate. */
  lemma OwnershipEndsExactly(s: System, e: DeskEvent)
    requires Reachable(s) && DeskNext(s.desk, e).Some? && s.desk.core.status == Owned
    ensures
      var c' := DeskNext(s.desk, e).value.core;
      !(c'.status == Owned && c'.id == s.desk.core.id) <==> EndsOwnership(s.desk, e)
    ensures e.ShowFailed? ==> s.desk.threads[e.t].id == s.desk.core.id
    ensures e.StopFinish? ==> s.desk.threads[e.t].epoch < |s.desk.log.admitted|
  {
    hide Reachable, BridgeInv, Linked, TokenInOnePlace, OneStopper, ReleasedOnce, ActedOnce,
         OperationTracked, AuthorityKept, ObservationsOwned, ObservationsCurrent;
    ReachableKeepsInvariant(s);
  }

  /** When the coordinator's `id` is left behind by an ownership: the step is the
      last section of a `finishStop` that finds an owner. */
  lemma IdOutlivesOwnershipExactly(s: System, e: DeskEvent)
    requires Reachable(s) && DeskNext(s.desk, e).Some?
    requires s.desk.core.id != NO_CONTROL ==> s.desk.core.status == Owned
    ensures
      var c' := DeskNext(s.desk, e).value.core;
      (c'.id != NO_CONTROL && c'.status != Owned)
        <==> (e.StopFinish? && s.desk.core.status == Owned && s.desk.core.id != NO_CONTROL)
  {
    hide Reachable, BridgeInv, Linked, TokenInOnePlace, OneStopper, ReleasedOnce, ActedOnce,
         OperationTracked, AuthorityKept, ObservationsOwned, ObservationsCurrent;
    ReachableKeepsInvariant(s);
  }

  /** The coordinator alone reaches `d`, the bridge being idle. */
  ghost predicate DeskReachable(d: Desk) { Reachable(System(d, InitialBridge)) }

  lemma DeskReachesNext(d: Desk, e: DeskEvent, d': Desk)
    requires DeskReachable(d) && DeskNext(d, e) == Some(d')
    ensures DeskReachable(d')
  {
    hide DeskNext, Reachable;
    ReachesNext(System(d, InitialBridge), OfDesk(e));
  }

  /** The acquisition of owner 7 begins to fail. */
  lemma AcquisitionFails() returns (d: Desk)
    ensures DeskReachable(d) && d.gate == 0 && d.stopMutex.None? && d.log.admitted == [7]
    ensures d.core == Core(Owned, 7, IDLE_TIMEOUT, None, {}, map[], false, 0)
    ensures d.threads.Keys == {1} && d.At(1, Resetting(7))
  {
    InitialIsReachable();
    var d1 := InitialDesk.Take(1).To(1, Acquiring);
    var d2 := AdmitStep(d1, 1, Some(7), 0).value;
    d := d2.To(1, Resetting(7));
    DeskReachesNext(InitialDesk, TakeForAcquire(1), d1);
    DeskReachesNext(d1, Admit(1, Some(7), 0), d2);
    DeskReachesNext(d2, Shown(1, false), d);
  }

  /** Owner 7 is stopped meanwhile. */
  lemma FailingOwnerIsStopped() returns (d: Desk)
    ensures DeskReachable(d) && d.gate == 0 && d.stopMutex == Some(2) && d.log.admitted == [7]
    ensures d.core == Core(Stopping, NO_CONTROL, IDLE_TIMEOUT, None, {}, map[], false, 1)
    ensures d.threads.Keys == {1, 2} && d.At(1, Resetting(7)) && d.At(2, StopWaiting(1))
  {
    var d0 := AcquisitionFails();
    var d1 := d0.(core := d0.core.Stopped());
    var d2 := StopStartStep(d1, 2).value;
    d := d2.To(2, StopWaiting(1));
    DeskReachesNext(d0, LocalStop, d1);
    DeskReachesNext(d1, StopStart(2), d2);
    DeskReachesNext(d2, StopResetDone(2, true), d);
  }

  /** The failed acquisition frees the desktop; its stop still waits for the gate. */
  lemma StopOutlivesAcquisition() returns (d: Desk)
    ensures DeskReachable(d) && d.gate == 1 && d.stopMutex == Some(2) && d.log.admitted == [7]
    ensures d.core == Core(Free, NO_CONTROL, IDLE_TIMEOUT, None, {}, map[], false, 1)
    ensures d.threads.Keys == {1, 2} && d.At(2, StopWaiting(1))
  {
    var d0 := FailingOwnerIsStopped();
    var d1 := ShowFailedStep(d0, 1, true).value;
    d := PutBackStep(d1, 1).value;
    DeskReachesNext(d0, ShowFailed(1, true), d1);
    DeskReachesNext(d1, PutBack(1), d);
  }

  /** Owner 8 is admitted. */
  lemma NextOwnerIsAdmitted() returns (d: Desk)
    ensures DeskReachable(d) && d.gate == 1 && d.core.status == Owned && d.core.id == 8 && !d.core.closed
    ensures d.At(2, StopWaiting(1))
  {
    var d0 := StopOutlivesAcquisition();
    var d1 := d0.Take(3).To(3, Acquiring);
    var d2 := AdmitStep(d1, 3, Some(8), 0).value;
    var d3 := d2.To(3, Returning(false, Finish));
    d := PutBackStep(d3, 3).value;
    DeskReachesNext(d0, TakeForAcquire(3), d1);
    DeskReachesNext(d1, Admit(3, Some(8), 0), d2);
    DeskReachesNext(d2, Shown(3, true), d3);
    DeskReachesNext(d3, PutBack(3), d);
  }

  /** Owner 8 neither releases nor expires nor is stopped, and loses the desktop
      to the stop of owner 7, whose own acquisition failed in between; its `id`
      is left behind. */
  lemma StaleStopEndsOwnership() returns (d: Desk)
    ensures DeskReachable(d) && d.core.status == Owned && d.core.id == 8
    ensures
      var after := DeskNext(d, StopFinish(2));
      after.Some? && after.value.core.status == Free && after.value.core.id == 8
  {
    var d0 := NextOwnerIsAdmitted();
    d := d0.Take(2).To(2, StopHolding(1));
    DeskReachesNext(d0, StopTake(2), d);
  }

  // Reservations ------------------------------------------------------------------------

  /** Every granted reservation is either held, exactly once, or was released,
      exactly once. */
  lemma ReservationsReleasedOnce(s: System, t: ThreadId)
    requires Reachable(s) && t in s.desk.log.reserved
    ensures t in s.desk.threads
    ensures s.desk.log.released[t] == (if Reserved(s.desk.threads[t]) then 0 else 1)
  {
    ReachableKeepsInvariant(s);
  }

  /** The events that may release a reservation stored in call `c`. */
  predicate Releases(e: SystemEvent, c: CallId, p: PendingCall) {
    || (e.Receive? && e.identity.call == c && Belongs(p, e.identity))
    || (e.Connect? && e.browser == p.browser && e.boot != p.boot)
    || e.CloseBridge?
  }

  /** The reservation of call `c` is still the one it was. */
  ghost predicate StillStored(s: System, s': System, c: CallId)
    requires c in s.bridge.pending && s.bridge.pending[c].release.Some?
  {
    var t := s.bridge.pending[c].release.value;
    && c in s'.bridge.pending && s'.bridge.pending[c].release == Some(t)
    && t in s.desk.threads && t in s'.desk.threads && s'.desk.threads[t] == s.desk.threads[t]
  }

  /** The call is gone and its release function has been called. */
  ghost predicate HasReleased(s: System, s': System, c: CallId)
    requires c in s.bridge.pending && s.bridge.pending[c].release.Some?
  {
    var t := s.bridge.pending[c].release.value;
    c !in s'.bridge.pending && t in s'.desk.threads && s'.desk.threads[t].Ending?
  }

  ghost predicate Stores(s: System, c: CallId) { c in s.bridge.pending && s.bridge.pending[c].release.Some? }

  lemma AloneKeepsStored(s: System, e: SystemEvent, c: CallId)
    requires SystemInv(s) && Next(s, e).Some? && Stores(s, c) && (e.OfDesk? || e.OfBridge?)
    ensures StillStored(s, Next(s, e).value, c)
  {
    if e.OfDesk? {
      DeskStepKeepsParking(s.desk, e.step);
    } else {
      BridgeStepKeepsReservations(s.bridge, e.section);
    }
  }

  lemma StoredIsParked(s: System, c: CallId)
    requires Linked(s.desk.threads, s.bridge.pending, s.bridge.targets) && Stores(s, c)
    ensures
      var t := s.bridge.pending[c].release.value;
      t in s.desk.threads && s.desk.threads[t].Parked? && s.desk.threads[t].call == c
  {
    hide OneHandler;
  }

  /** The handler at work is that of another call. */
  lemma HandledIsOther(s: System, t: ThreadId, c: CallId)
    requires Linked(s.desk.threads, s.bridge.pending, s.bridge.targets) && Stores(s, c) && t in s.desk.threads
    ensures Handles(s.desk.threads[t]) != Some(c)
  {
    hide ReleasesParked;
  }

  lemma StartKeepsStored(s: System, e: SystemEvent, c: CallId)
    requires Linked(s.desk.threads, s.bridge.pending, s.bridge.targets) && Stores(s, c)
    requires e.AuthorizeStart? && Next(s, e).Some?
    ensures StillStored(s, Next(s, e).value, c)
  {
    hide Linked, DeskNext, BridgeNext, ReceiveStep, ConnectStep, CloseBridgeStep, AuthorizeUngatedStep,
         AuthorizeFailStep, AuthorizeStoreStep;
    StoredIsParked(s, c);
  }

  lemma HandlerKeepsStored(s: System, e: SystemEvent, c: CallId)
    requires Linked(s.desk.threads, s.bridge.pending, s.bridge.targets) && Next(s, e).Some? && Stores(s, c)
    requires e.AuthorizeStart? || e.AuthorizeUngated? || e.AuthorizeFail? || e.AuthorizeStore?
    ensures StillStored(s, Next(s, e).value, c)
  {
    hide Linked, DeskNext, BridgeNext, ReceiveStep, ConnectStep, CloseBridgeStep, AuthorizeStartStep;
    if e.AuthorizeStart? {
      StartKeepsStored(s, e, c);
    } else {
      StoredIsParked(s, c);
      HandledIsOther(s, e.t, c);
    }
  }

  lemma ReceiveReleases(s: System, i: Identity, c: CallId)
    requires Linked(s.desk.threads, s.bridge.pending, s.bridge.targets) && ReceiveStep(s, i).Some? && Stores(s, c)
    ensures if i.call == c then HasReleased(s, ReceiveStep(s, i).value, c)
            else StillStored(s, ReceiveStep(s, i).value, c)
    ensures i.call == c ==> Belongs(s.bridge.pending[c], i)
  {}

  lemma CloseReleases(s: System, c: CallId)
    requires Linked(s.desk.threads, s.bridge.pending, s.bridge.targets) && CloseBridgeStep(s).Some? && Stores(s, c)
    ensures HasReleased(s, CloseBridgeStep(s).value, c)
  {
    assert s.bridge.pending[c].release.value in ReleasedByClose(s.bridge.pending);
  }

  lemma ConnectReleasesOldBoots(s: System, browser: BrowserId, boot: BootId, stream: StreamId, c: CallId)
    requires Linked(s.desk.threads, s.bridge.pending, s.bridge.targets) && Stores(s, c)
    requires WellFormed(s.bridge.pending) && CurrentGeneration(s.bridge.pending, s.bridge.instances)
    requires ConnectStep(s, browser, boot, stream).Some?
    ensures
      var p := s.bridge.pending[c];
      if browser == p.browser && boot != p.boot
      then HasReleased(s, ConnectStep(s, browser, boot, stream).value, c)
      else StillStored(s, ConnectStep(s, browser, boot, stream).value, c)
  {
    if browser in s.bridge.instances {
      ConnectReleases(s.desk.threads, s.bridge, browser, boot, s.bridge.instances[browser].boot, c);
    }
  }

  /** A stored reservation survives everything (cancellation of the caller,
      disconnection, reconnection of the same boot) but its own result, another
      boot of its browser, and the end of the bridge; each of these releases it. */
  lemma StoredReservationSurvives(s: System, e: SystemEvent, c: CallId)
    requires Reachable(s) && Next(s, e).Some? && Stores(s, c)
    ensures
      if Releases(e, c, s.bridge.pending[c])
      then HasReleased(s, Next(s, e).value, c)
      else StillStored(s, Next(s, e).value, c)
  {
    hide Reachable, DeskInv, Linked, StillStored, HasReleased, QueuesOk, MarkedOnce, CancelsOnce, SentAtMostOnce,
         GenerationsAgree, OnOwnStream, DispatchedIffMarked, ReceiveStep, ConnectStep, CloseBridgeStep,
         AuthorizeStartStep, AuthorizeUngatedStep, AuthorizeFailStep, AuthorizeStoreStep, DeskNext, BridgeNext;
    ReachableKeepsInvariant(s);
    match e
    case OfDesk(_) => AloneKeepsStored(s, e, c);
    case OfBridge(_) => AloneKeepsStored(s, e, c);
    case Receive(i) => ReceiveReleases(s, i, c);
    case Connect(browser, boot, stream) => ConnectReleasesOldBoots(s, browser, boot, stream, c);
    case CloseBridge => CloseReleases(s, c);
    case _ => HandlerKeepsStored(s, e, c);
  }

  // Observations ------------------------------------------------------------------------

  /** Each state ID authorises at most one native action. The action runs under
      the control that observed it, and nothing (another validated action, a
      browser-visible operation, a stop) has emptied the table in between. */
  lemma ObservationActsOnce(s: System, i: nat)
    requires Reachable(s) && i < |s.desk.log.acted| && s.desk.log.acted[i].state.Some?
    ensures
      var log := s.desk.log;
      var a := log.acted[i];
      && (forall j :: 0 <= j < |log.acted| && log.acted[j].state == a.state ==> j == i)
      && a.state.value in log.observed && log.observed[a.state.value] == Observation(a.control, a.clears)
      && a.state.value !in s.desk.core.states
  {
    ReachableKeepsInvariant(s);
  }

  /** An action is logged with the control of the thread that performs it and
      the number of times the table had been emptied before. */
  lemma ActionRunsUnderItsControl(s: System, e: DeskEvent)
    requires Reachable(s) && DeskNext(s.desk, e).Some?
    requires DeskNext(s.desk, e).value.log.acted != s.desk.log.acted
    ensures e.Act? && s.desk.threads[e.t].Operating?
    ensures DeskNext(s.desk, e).value.log.acted ==
      s.desk.log.acted + [Acted(e.consumed, s.desk.threads[e.t].id, s.desk.core.clears)]
    ensures s.desk.core.operation == Some(e.t)
    ensures DeskNext(s.desk, e).value.core.states == map[]
    ensures DeskNext(s.desk, e).value.core.clears == s.desk.core.clears + 1
  {
    hide Reachable, BridgeInv, Linked, TokenInOnePlace, OneStopper, ReleasedOnce, ActedOnce,
         AuthorityKept, AdmissionHeld, EpochsOrdered, ObservationsCurrent, ObservationsOwned;
    ReachableKeepsInvariant(s);
  }

  lemma RetainedObservations(s: System, state: StateId)
    requires Reachable(s) && state in s.desk.core.states
    ensures
      var c := s.desk.core;
      c.status == Owned && c.states[state] == c.id && |c.states| <= MAX_STATES
  {
    ReachableKeepsInvariant(s);
  }

  // Calls and commands ---------------------------------------------------------------------

  /** No result channel (capacity one) is ever sent to twice; the table holds at
      most 256 calls; an abandoned call still in it was dispatched; no command is
      dispatched twice. */
  lemma CallsBehave(s: System)
    requires Reachable(s)
    ensures
      var b := s.bridge;
      && (forall c :: c in b.sends ==> b.sends[c] <= 1)
      && |b.pending| <= MAX_PENDING
      && (forall c :: c in b.pending && b.pending[c].abandoned ==> b.pending[c].dispatched)
      && (forall j, k :: 0 <= j < k < |b.marks| ==> b.marks[j].call != b.marks[k].call)
  {
    ReachableKeepsInvariant(s);
  }

  /** A command is dispatched only while its call is waited for, and only on the
      live stream of the boot of the browser it was meant for. */
  lemma DispatchedToItsGeneration(s: System, stream: StreamId, late: bool)
    requires Reachable(s) && DispatchSection(s.bridge, stream, late).Some?
    requires DispatchSection(s.bridge, stream, late).value.marks != s.bridge.marks
    ensures
      var b := s.bridge;
      var c := b.streams[stream].commands[0];
      && c in b.pending && !b.pending[c].abandoned && !b.pending[c].contextDone && !b.pending[c].dispatched && !late
      && Current(b, stream) && Affected(b.pending[c], b.streams[stream])
  {
    ReachableKeepsInvariant(s);
    DropCommandKeepsInv(s.bridge, stream);
  }

  /** A result is accepted exactly if its call is pending and it comes from the boot
      of the browser that the command was meant for. */
  lemma ResultsComeFromTheirGeneration(s: System, i: Identity)
    requires Reachable(s)
    ensures Next(s, Receive(i)).Some? <==>
      && i.call in s.bridge.pending
      && s.bridge.pending[i.call].browser == i.browser && s.bridge.pending[i.call].boot == i.boot
    ensures i.call in s.bridge.pending ==>
      && i.call in s.bridge.targets && s.bridge.targets[i.call] in s.bridge.streams
      && Affected(s.bridge.pending[i.call], s.bridge.streams[s.bridge.targets[i.call]])
  {
    hide Reachable, DeskInv, Linked, QueuesOk, MarkedOnce, CancelsOnce, SentAtMostOnce, ReleaseParked;
    ReachableKeepsInvariant(s);
  }

  lemma SectionsSendNothing(b: Bridge, e: BridgeEvent, c: CallId)
    requires c in b.sends && c in b.targets && BridgeNext(b, e).Some?
    ensures c in BridgeNext(b, e).value.sends && BridgeNext(b, e).value.sends[c] == b.sends[c]
  {
    hide PutCommand, DropCommand, PutControl, DropControl, Serving, Dispatchable, CancelledCalls, CancelTarget;
  }

  /** The caller of a call that nobody has given up is told something exactly when a
      result comes from its generation, or its browser connects again. */
  lemma CallersAreTold(s: System, e: SystemEvent, c: CallId)
    requires Reachable(s) && Next(s, e).Some? && c in s.bridge.sends
    ensures c in Next(s, e).value.bridge.sends
    ensures Next(s, e).value.bridge.sends[c] != s.bridge.sends[c] <==>
      && c in s.bridge.pending && !s.bridge.pending[c].abandoned
      && var p := s.bridge.pending[c];
         e == Receive(Identity(c, p.browser, p.boot)) || (e.Connect? && e.browser == p.browser)
  {
    hide Reachable, DeskInv, Linked, QueuesOk, MarkedOnce, CancelsOnce, ReleaseParked, DeskNext, BridgeNext,
         AuthorizeStoreCalls, AuthorizeStartCalls, UngatedCalls, AuthorizeFailedCalls, CallsAfterConnect;
    ReachableKeepsInvariant(s);
    if e.OfBridge? {
      SectionsSendNothing(s.bridge, e.section, c);
    }
  }
}
