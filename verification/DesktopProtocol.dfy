/** The coordinator and the browser bridge as one state machine. `DesktopGate` of
    internal/browser/browser.go is `BeginDesktopOperation` of the coordinator, so
    a pending browser call can hold the desktop's token. */
module DesktopProtocol {
  import opened Basics
  import opened Coordination
  import opened DesktopGate
  import opened DesktopGateSafety
  import opened BrowserBridge
  import opened BridgeSafety

  datatype System = System(desk: Desk, bridge: Bridge)

  const InitialSystem := System(InitialDesk, InitialBridge)

  datatype SystemEvent =
    | OfDesk(step: DeskEvent)
    | OfBridge(section: BridgeEvent)
    | AuthorizeStart(t: ThreadId, identity: Identity)
    | AuthorizeUngated(t: ThreadId)
    | AuthorizeFail(t: ThreadId)
    | AuthorizeStore(t: ThreadId, contextDone: bool)
    | Receive(identity: Identity)
    | Connect(browser: BrowserId, boot: BootId, stream: StreamId)
    | CloseBridge

  function AuthorizeStartStep(s: System, t: ThreadId, i: Identity): Option<System> {
    var verdict := AuthorizeVerdictOf(s.bridge.pending, i);
    if t in s.desk.threads || !verdict.Ask? then None
    else Some(System(AuthorizeSpawn(s.desk, t, verdict.control, i.call, s.bridge.gateSet),
                     s.bridge.(pending := AuthorizeStartCalls(s.bridge.pending, i))))
  }

  function AuthorizeUngatedStep(s: System, t: ThreadId): Option<System> {
    if t !in s.desk.threads || !s.desk.threads[t].Ungated? then None
    else Some(System(s.desk.To(t, Done),
                     s.bridge.(pending := UngatedCalls(s.bridge.pending, s.desk.threads[t].call))))
  }

  function AuthorizeFailStep(s: System, t: ThreadId): Option<System> {
    if t !in s.desk.threads || !s.desk.threads[t].AuthorizationFailed? then None
    else Some(System(s.desk.To(t, Done),
                     s.bridge.(pending := AuthorizeFailedCalls(s.bridge.pending, s.desk.threads[t].call))))
  }

  predicate ContextDone(calls: Calls, id: CallId) { id in calls && calls[id].contextDone }

  /** `contextDone` must be seen when the coordinator has cancelled the operation,
      or the call itself has been cancelled. */
  function AuthorizeStoreStep(s: System, t: ThreadId, contextDone: bool): Option<System> {
    if t !in s.desk.threads || !s.desk.threads[t].Operating? || s.desk.threads[t].use.Native? then None
    else if t in s.desk.core.cancelled && !contextDone then None
    else if ContextDone(s.bridge.pending, s.desk.threads[t].use.call) && !contextDone then None
    else
      var (calls, kept) := AuthorizeStoreCalls(s.bridge.pending, s.desk.threads[t].use.call, t, contextDone);
      Some(System(if kept then Park(s.desk, t) else Undo(s.desk, t), s.bridge.(pending := calls)))
  }

  function AsSet<T>(o: Option<T>): set<T> {
    match o
    case None => {}
    case Some(t) => {t}
  }

  function ReceiveStep(s: System, i: Identity): Option<System> {
    var verdict := ReceiveVerdict(s.bridge, i);
    if !verdict.Accepted? then None
    else Some(System(ReleaseParked(s.desk, AsSet(verdict.release)), ReceiveSection(s.bridge, i)))
  }

  function ConnectStep(s: System, browser: BrowserId, boot: BootId, stream: StreamId): Option<System> {
    if stream in s.bridge.streams then None
    else match ConnectSection(s.bridge, browser, boot, stream)
      case None => None
      case Some(b) => Some(System(ReleaseParked(s.desk, ReleasedByConnect(s.bridge, browser, boot)), b))
  }

  function CloseBridgeStep(s: System): Option<System> {
    if !s.bridge.stopped then None
    else Some(System(ReleaseParked(s.desk, ReleasedByClose(s.bridge.pending)), s.bridge.(pending := map[])))
  }

  /** One step of the whole system; None when the event cannot happen now. */
  function Next(s: System, e: SystemEvent): Option<System> {
    match e
    case OfDesk(step) =>
      (match DeskNext(s.desk, step) case None => None case Some(d) => Some(s.(desk := d)))
    case OfBridge(section) =>
      (match BridgeNext(s.bridge, section) case None => None case Some(b) => Some(s.(bridge := b)))
    case AuthorizeStart(t, i) => AuthorizeStartStep(s, t, i)
    case AuthorizeUngated(t) => AuthorizeUngatedStep(s, t)
    case AuthorizeFail(t) => AuthorizeFailStep(s, t)
    case AuthorizeStore(t, contextDone) => AuthorizeStoreStep(s, t, contextDone)
    case Receive(i) => ReceiveStep(s, i)
    case Connect(browser, boot, stream) => ConnectStep(s, browser, boot, stream)
    case CloseBridge => CloseBridgeStep(s)
  }

  /** The events of a run and the states it passes through. */
  ghost predicate IsRun(es: seq<SystemEvent>, ss: seq<System>) {
    && |ss| == |es| + 1 && ss[0] == InitialSystem
    && forall i {:trigger Next(ss[i], es[i])} :: 0 <= i < |es| ==> Next(ss[i], es[i]) == Some(ss[i + 1])
  }

  ghost predicate Reachable(s: System) {
    exists es, ss :: IsRun(es, ss) && ss[|es|] == s
  }

  // The invariant that joins the two halves ------------------------------------

  /** The call whose authorize handler the thread is, until it has parked or
      given up its reservation. */
  function Handles(p: Phase): Option<CallId> {
    match p
    case BeginChecking(_, Browser(c)) => Some(c)
    case BeginWaiting(_, Browser(c)) => Some(c)
    case BeginHolding(_, Browser(c)) => Some(c)
    case Invalidating(_, c) => Some(c)
    case Operating(_, Browser(c)) => Some(c)
    case Ending(_, FailAuthorization(c)) => Some(c)
    case Returning(_, FailAuthorization(c)) => Some(c)
    case AuthorizationFailed(c) => Some(c)
    case Ungated(c) => Some(c)
    case _ => None
  }

  /** A pending call holds a release function iff its reservation is parked there. */
  ghost predicate ReleasesParked(threads: Threads, calls: Calls) {
    && (forall id :: id in calls && calls[id].release.Some? ==>
          var t := calls[id].release.value;
          t in threads && threads[t].Parked? && threads[t].call == id)
    && (forall t :: t in threads && threads[t].Parked? ==>
          threads[t].call in calls && calls[threads[t].call].release == Some(t))
  }

  predicate Authorizing(p: PendingCall) { p.dispatched && p.authorizing && p.release.None? }

  /** A call still in the table has at most one handler, which has marked it. */
  ghost predicate OneHandler(threads: Threads, calls: Calls, targets: Targets) {
    && (forall t :: t in threads && Handles(threads[t]).Some? ==>
          var c := Handles(threads[t]).value;
          c in targets && (c in calls ==> Authorizing(calls[c])))
    && (forall t, u :: t in threads && u in threads && Handles(threads[t]).Some?
                       && Handles(threads[t]) == Handles(threads[u]) && Handles(threads[t]).value in calls ==>
          t == u)
  }

  ghost predicate Linked(threads: Threads, calls: Calls, targets: Targets) {
    ReleasesParked(threads, calls) && OneHandler(threads, calls, targets)
  }

  ghost predicate SystemInv(s: System) {
    DeskInv(s.desk) && BridgeInv(s.bridge) && Linked(s.desk.threads, s.bridge.pending, s.bridge.targets)
  }

  lemma LinkedOf(s: System)
    requires SystemInv(s)
    ensures Linked(s.desk.threads, s.bridge.pending, s.bridge.targets)
  {}

  lemma InitialSystemInv()
    ensures SystemInv(InitialSystem)
  {
    InitialDeskInv();
    InitialBridgeInv();
  }

  // Steps of the coordinator alone -------------------------------------------------

  /** A coordinator step neither parks nor unparks, and starts no handler. */
  ghost predicate SameParking(threads: Threads, threads': Threads) {
    && (forall t :: t in threads && threads[t].Parked? ==> t in threads' && threads'[t] == threads[t])
    && (forall t :: t in threads' && threads'[t].Parked? ==> t in threads && threads[t] == threads'[t])
    && (forall t :: t in threads' && Handles(threads'[t]).Some? ==>
          t in threads && Handles(threads[t]) == Handles(threads'[t]))
  }

  /** Moving one thread that is not parked, to a phase that handles nothing new. */
  ghost predicate MovesOne(threads: Threads, t: ThreadId, threads': Threads) {
    && t in threads' && threads' == threads[t := threads'[t]]
    && !(t in threads && threads[t].Parked?) && !threads'[t].Parked?
    && (Handles(threads'[t]).Some? ==> t in threads && Handles(threads[t]) == Handles(threads'[t]))
  }

  lemma MovingOneKeepsParking(threads: Threads, t: ThreadId, threads': Threads)
    requires MovesOne(threads, t, threads')
    ensures SameParking(threads, threads')
  {}

  /** The steps of a thread inside `begin` ... `end`. */
  predicate OfOperation(e: DeskEvent) {
    e.BeginNative? || e.BeginCheck? || e.BeginGiveUp? || e.BeginTake? || e.BeginAbort? || e.BeginEnter?
    || e.Invalidated? || e.Observe? || e.Act? || e.EndNative? || e.End?
  }

  lemma OperationStepMovesOne(d: Desk, e: DeskEvent)
    requires DeskNext(d, e).Some? && OfOperation(e)
    ensures MovesOne(d.threads, e.t, DeskNext(d, e).value.threads) || DeskNext(d, e).value.threads == d.threads
  {
    hide BeginSection, EndSection, ObserveSection, ConsumeSection;
  }

  lemma OtherStepMovesOne(d: Desk, e: DeskEvent)
    requires DeskNext(d, e).Some? && !OfOperation(e) && !Threadless(e)
    ensures MovesOne(d.threads, e.t, DeskNext(d, e).value.threads)
  {
    hide AdmitSection, AdmitFailedSection, FinishStopSection;
  }

  lemma DeskStepMovesOne(d: Desk, e: DeskEvent)
    requires DeskNext(d, e).Some?
    ensures
      var threads := DeskNext(d, e).value.threads;
      threads == d.threads || (!Threadless(e) && MovesOne(d.threads, e.t, threads))
  {
    if OfOperation(e) {
      OperationStepMovesOne(d, e);
    } else if !Threadless(e) {
      OtherStepMovesOne(d, e);
    }
  }

  lemma DeskStepKeepsParking(d: Desk, e: DeskEvent)
    requires DeskNext(d, e).Some?
    ensures SameParking(d.threads, DeskNext(d, e).value.threads)
  {
    DeskStepMovesOne(d, e);
    var threads := DeskNext(d, e).value.threads;
    if threads != d.threads {
      MovingOneKeepsParking(d.threads, e.t, threads);
    }
  }

  // Steps of the bridge alone ------------------------------------------------------

  /** A call later on, as far as reservations and handlers are concerned. */
  predicate SameReservation(p: PendingCall, q: PendingCall) {
    q.release == p.release && q.authorizing == p.authorizing && (p.dispatched ==> q.dispatched)
  }

  /** The sections of the bridge alone keep every reservation; a new call has none. */
  ghost predicate KeepsReservations(calls: Calls, calls': Calls, targets: Targets) {
    && (forall id :: id in calls && calls[id].release.Some? ==> id in calls')
    && (forall id :: id in calls' ==>
          if id in calls then SameReservation(calls[id], calls'[id])
          else id !in targets && calls'[id].release.None?)
  }

  lemma LinkKept(threads: Threads, threads': Threads, calls: Calls, calls': Calls, targets: Targets, targets': Targets)
    requires Linked(threads, calls, targets) && SameParking(threads, threads')
    requires KeepsReservations(calls, calls', targets) && targets.Keys <= targets'.Keys
    ensures Linked(threads', calls', targets')
  {}

  lemma CancelKeepsReservations(calls: Calls, id: CallId, sent: bool, targets: Targets)
    requires WellFormed(calls) && id in calls
    ensures KeepsReservations(calls, CancelledCalls(calls, id, sent), targets)
    ensures KeepsReservations(calls, CancelledCalls(calls[id := Abandoned(calls[id])], id, sent), targets)
  {}

  lemma StreamKeepsReservations(calls: Calls, stream: Stream, targets: Targets)
    requires WellFormed(calls)
    ensures KeepsReservations(calls, CallsAfterDisconnect(calls, stream), targets)
    ensures KeepsReservations(calls, ContextsDone(calls), targets)
  {}

  lemma DispatchingKeepsReservations(calls: Calls, id: CallId, targets: Targets)
    requires WellFormed(calls)
    ensures KeepsReservations(calls, calls, targets)
    ensures id in calls ==> KeepsReservations(calls, calls[id := calls[id].(dispatched := true)], targets)
    ensures id in calls && !calls[id].dispatched ==> KeepsReservations(calls, calls - {id}, targets)
  {}

  lemma DispatchKeepsReservations(b: Bridge, s: StreamId, late: bool)
    requires WellFormed(b.pending) && DispatchSection(b, s, late).Some?
    ensures KeepsReservations(b.pending, DispatchSection(b, s, late).value.pending, b.targets)
  {
    hide DropCommand, Dispatchable, KeepsReservations;
    DispatchingKeepsReservations(b.pending, b.streams[s].commands[0], b.targets);
  }

  lemma DispatchCancelKeepsReservations(b: Bridge, s: StreamId)
    requires WellFormed(b.pending) && DispatchCancelSection(b, s).Some?
    ensures KeepsReservations(b.pending, DispatchCancelSection(b, s).value.pending, b.targets)
  {
    hide DropControl, Current;
  }

  lemma CancelSectionKeepsReservations(b: Bridge, id: CallId)
    requires WellFormed(b.pending) && id in b.pending
    ensures KeepsReservations(b.pending, CancelSection(b, id).pending, b.targets)
    ensures KeepsReservations(b.pending, LeaveSection(b, id).pending, b.targets)
  {
    CancelKeepsReservations(b.pending, id, true, b.targets);
    CancelKeepsReservations(b.pending, id, b.pending[id].cancelSent, b.targets);
  }

  ghost predicate Registered(calls: Calls, targets: Targets) { forall id :: id in calls ==> id in targets }

  lemma BridgeStepKeepsReservations(b: Bridge, e: BridgeEvent)
    requires WellFormed(b.pending) && Registered(b.pending, b.targets) && BridgeNext(b, e).Some?
    ensures KeepsReservations(b.pending, BridgeNext(b, e).value.pending, b.targets)
    ensures b.targets.Keys <= BridgeNext(b, e).value.targets.Keys
  {
    match e
    case SetGate =>
    case Register(_, _, _, _) =>
    case Enqueue(_) =>
    case Leave(id) =>
      if id in b.pending {
        CancelSectionKeepsReservations(b, id);
      }
    case GateWatch(id) => CancelSectionKeepsReservations(b, id);
    case Dispatch(s, late) => DispatchKeepsReservations(b, s, late);
    case DispatchCancel(s) => DispatchCancelKeepsReservations(b, s);
    case Disconnect(s) => StreamKeepsReservations(b.pending, b.streams[s], b.targets);
    case StopContext => StreamKeepsReservations(b.pending, Stream(0, 0, [], []), b.targets);
  }

  // Steps that release a reservation -------------------------------------------------

  /** The parked thread holds the token, so at most one thread is released. */
  lemma ReleasesOne(d: Desk, ts: set<ThreadId>, t: ThreadId)
    requires TokenInOnePlace(d.gate, d.token, d.threads)
    requires t in d.threads && d.threads[t].Parked? && t in ts
    ensures ReleaseParked(d, ts) == d.To(t, Ending(d.threads[t].id, Finish))
  {
    var threads' := ReleaseParked(d, ts).threads;
    forall u | u in d.threads
      ensures threads'[u] == d.threads[t := Ending(d.threads[t].id, Finish)][u]
    {
      if d.threads[u].Parked? {
        assert Holding(d.threads[u]) && Holding(d.threads[t]);
      }
    }
    assert threads' == d.threads[t := Ending(d.threads[t].id, Finish)];
  }

  lemma ReleasesNone(d: Desk, ts: set<ThreadId>)
    requires forall t :: t in ts && t in d.threads ==> !d.threads[t].Parked?
    ensures ReleaseParked(d, ts) == d
  {
    forall u | u in d.threads
      ensures ReleaseParked(d, ts).threads[u] == d.threads[u]
    {}
    assert ReleaseParked(d, ts).threads == d.threads;
  }

  lemma ReleasingKeepsDesk(d: Desk, ts: set<ThreadId>)
    requires DeskInv(d)
    ensures DeskInv(ReleaseParked(d, ts))
  {
    if t :| t in ts && t in d.threads && d.threads[t].Parked? {
      QuietMoveKeepsInv(d, t, Ending(d.threads[t].id, Finish));
      ReleasesOne(d, ts, t);
    } else {
      ReleasesNone(d, ts);
    }
  }

  /** Dropping calls and releasing exactly the reservations they held. */
  lemma ReleasingKeepsLink(d: Desk, ts: set<ThreadId>, calls: Calls, calls': Calls, targets: Targets)
    requires Linked(d.threads, calls, targets)
    requires forall id :: id in calls' ==> id in calls && SameReservation(calls[id], calls'[id])
    requires forall id :: id in calls && calls[id].release.Some? ==>
      (id in calls' <==> calls[id].release.value !in ts)
    ensures Linked(ReleaseParked(d, ts).threads, calls', targets)
  {
    var threads' := ReleaseParked(d, ts).threads;
    forall t | t in threads' && (threads'[t].Parked? || Handles(threads'[t]).Some?)
      ensures d.threads[t] == threads'[t]
    {}
    forall id | id in calls' && calls'[id].release.Some?
      ensures var t := calls'[id].release.value; t in d.threads && threads'[t] == d.threads[t]
    {
      var t := calls[id].release.value;
      assert t in d.threads && t !in ts;
    }
  }

  /** No two calls hold the same reservation. */
  lemma ParkedElsewhere(threads: Threads, calls: Calls, targets: Targets, c: CallId)
    requires Linked(threads, calls, targets) && c in calls
    ensures forall id :: id in calls && calls[id].release.Some? ==> (id == c <==> calls[id].release == calls[c].release)
  {}

  lemma ReceiveKeepsInvariant(s: System, i: Identity)
    requires SystemInv(s) && ReceiveStep(s, i).Some?
    ensures SystemInv(ReceiveStep(s, i).value)
  {
    hide DeskInv, BridgeInv, Linked, ReleaseParked;
    var calls := s.bridge.pending;
    ReceiveKeepsInv(s.bridge, i);
    ParkedElsewhere(s.desk.threads, calls, s.bridge.targets, i.call);
    ReleasingKeepsDesk(s.desk, AsSet(calls[i.call].release));
    ReleasingKeepsLink(s.desk, AsSet(calls[i.call].release), calls, calls - {i.call}, s.bridge.targets);
  }

  /** `connect` drops a call that holds a reservation iff it releases it. */
  lemma ConnectReleases(threads: Threads, b: Bridge, browser: BrowserId, boot: BootId, oldBoot: BootId, id: CallId)
    requires ReleasesParked(threads, b.pending) && WellFormed(b.pending)
    requires browser in b.instances && b.instances[browser].boot == oldBoot
    requires id in b.pending && b.pending[id].release.Some?
    ensures id in CallsAfterConnect(b.pending, browser, oldBoot, boot) <==>
      b.pending[id].release.value !in ReleasedByConnect(b, browser, boot)
  {
    var t := b.pending[id].release.value;
    if t in ReleasedByConnect(b, browser, boot) {
      var other :| other in b.pending && b.pending[other].release == Some(t) && b.pending[other].browser == browser;
      assert other == id;
    }
  }

  lemma ConnectKeepsLink(d: Desk, b: Bridge, browser: BrowserId, boot: BootId, oldBoot: BootId)
    requires Linked(d.threads, b.pending, b.targets) && WellFormed(b.pending)
    requires browser in b.instances && b.instances[browser].boot == oldBoot
    ensures Linked(ReleaseParked(d, ReleasedByConnect(b, browser, boot)).threads,
                   CallsAfterConnect(b.pending, browser, oldBoot, boot), b.targets)
  {
    var calls' := CallsAfterConnect(b.pending, browser, oldBoot, boot);
    forall id | id in b.pending && b.pending[id].release.Some?
      ensures id in calls' <==> b.pending[id].release.value !in ReleasedByConnect(b, browser, boot)
    {
      ConnectReleases(d.threads, b, browser, boot, oldBoot, id);
    }
    ReleasingKeepsLink(d, ReleasedByConnect(b, browser, boot), b.pending, calls', b.targets);
  }

  lemma ConnectKeepsInvariant(s: System, browser: BrowserId, boot: BootId, stream: StreamId)
    requires SystemInv(s) && ConnectStep(s, browser, boot, stream).Some?
    ensures SystemInv(ConnectStep(s, browser, boot, stream).value)
  {
    ConnectKeepsInv(s.bridge, browser, boot, stream);
    ReleasingKeepsDesk(s.desk, ReleasedByConnect(s.bridge, browser, boot));
    if browser in s.bridge.instances {
      ConnectKeepsLink(s.desk, s.bridge, browser, boot, s.bridge.instances[browser].boot);
    } else {
      ReleasesNone(s.desk, {});
    }
  }

  lemma CloseBridgeKeepsInvariant(s: System)
    requires SystemInv(s) && CloseBridgeStep(s).Some?
    ensures SystemInv(CloseBridgeStep(s).value)
  {
    LaterCallsKeepInv(s.bridge, map[]);
    ReleasingKeepsDesk(s.desk, ReleasedByClose(s.bridge.pending));
    ReleasingKeepsLink(s.desk, ReleasedByClose(s.bridge.pending), s.bridge.pending, map[], s.bridge.targets);
  }

  // Steps of the authorize handler ---------------------------------------------------

  lemma AskingKeepsLink(threads: Threads, calls: Calls, targets: Targets, t: ThreadId, i: Identity, p: Phase)
    requires Linked(threads, calls, targets) && AuthorizeVerdictOf(calls, i).Ask? && t !in threads
    requires i.call in targets && Handles(p) == Some(i.call)
    ensures Linked(threads[t := p], AuthorizeStartCalls(calls, i), targets)
  {}

  lemma AskingKeepsDesk(d: Desk, t: ThreadId, id: ControlId, call: CallId, gated: bool)
    requires DeskInv(d) && t !in d.threads
    ensures DeskInv(AuthorizeSpawn(d, t, id, call, gated))
  {
    QuietMoveKeepsInv(d, t, if gated then BeginChecking(id, Browser(call)) else Ungated(call));
  }

  lemma AskedCallIsKnown(b: Bridge, i: Identity)
    requires BridgeInv(b) && AuthorizeVerdictOf(b.pending, i).Ask?
    ensures WellFormed(b.pending) && i.call in b.pending && i.call in b.targets
  {
    hide WellFormed, QueuesOk, MarkedOnce, CancelsOnce, GenerationsAgree, CurrentGeneration, SentAtMostOnce;
  }

  lemma AuthorizeStartKeepsInvariant(s: System, t: ThreadId, i: Identity)
    requires SystemInv(s) && AuthorizeStartStep(s, t, i).Some?
    ensures SystemInv(AuthorizeStartStep(s, t, i).value)
  {
    hide DeskInv, BridgeInv, Linked, AuthorizeVerdictOf, AuthorizeStartCalls, LaterCalls, WellFormed;
    AskedCallIsKnown(s.bridge, i);
    var control := AuthorizeVerdictOf(s.bridge.pending, i).control;
    HandlerCallsLater(s.bridge.pending, i.call, i);
    LaterCallsKeepInv(s.bridge, AuthorizeStartCalls(s.bridge.pending, i));
    AskingKeepsDesk(s.desk, t, control, i.call, s.bridge.gateSet);
    AskingKeepsLink(s.desk.threads, s.bridge.pending, s.bridge.targets, t, i, BeginChecking(control, Browser(i.call)));
    AskingKeepsLink(s.desk.threads, s.bridge.pending, s.bridge.targets, t, i, Ungated(i.call));
  }

  /** The handler is done: the call is unmarked, or dropped holding nothing. */
  ghost predicate HandlerLeaves(calls: Calls, c: CallId, calls': Calls) {
    if c !in calls then calls' == calls
    else calls' == calls - {c} || calls' == calls[c := calls[c].(authorizing := false)]
  }

  lemma LeavingKeepsLink(threads: Threads, calls: Calls, targets: Targets, t: ThreadId, p: Phase, calls': Calls)
    requires Linked(threads, calls, targets) && t in threads && Handles(threads[t]).Some?
    requires !p.Parked? && Handles(p).None?
    requires HandlerLeaves(calls, Handles(threads[t]).value, calls')
    ensures Linked(threads[t := p], calls', targets)
  {}

  lemma HandlerLeavesKeepsDesk(d: Desk, t: ThreadId)
    requires DeskInv(d) && t in d.threads && (d.threads[t].Ungated? || d.threads[t].AuthorizationFailed?)
    ensures DeskInv(d.To(t, Done))
  {
    QuietMoveKeepsInv(d, t, Done);
  }

  lemma HandlerDoneWith(s: System, t: ThreadId, calls: Calls)
    requires SystemInv(s) && t in s.desk.threads
    requires s.desk.threads[t].Ungated? || s.desk.threads[t].AuthorizationFailed?
    requires HandlerLeaves(s.bridge.pending, s.desk.threads[t].call, calls)
    requires LaterCalls(s.bridge.pending, calls)
    ensures SystemInv(System(s.desk.To(t, Done), s.bridge.(pending := calls)))
  {
    hide DeskInv, BridgeInv, Linked, LaterCalls, HandlerLeaves;
    LaterCallsKeepInv(s.bridge, calls);
    HandlerLeavesKeepsDesk(s.desk, t);
    LeavingKeepsLink(s.desk.threads, s.bridge.pending, s.bridge.targets, t, Done, calls);
  }

  lemma HandlerDoneKeepsInvariant(s: System, t: ThreadId)
    requires SystemInv(s)
    ensures AuthorizeUngatedStep(s, t).Some? ==> SystemInv(AuthorizeUngatedStep(s, t).value)
    ensures AuthorizeFailStep(s, t).Some? ==> SystemInv(AuthorizeFailStep(s, t).value)
  {
    if t in s.desk.threads && (s.desk.threads[t].Ungated? || s.desk.threads[t].AuthorizationFailed?) {
      var c := s.desk.threads[t].call;
      HandlerCallsLater(s.bridge.pending, c, Identity(c, 0, 0));
      if s.desk.threads[t].Ungated? {
        HandlerDoneWith(s, t, UngatedCalls(s.bridge.pending, c));
      } else {
        HandlerDoneWith(s, t, AuthorizeFailedCalls(s.bridge.pending, c));
      }
    }
  }

  /** The reservation moves from the handler to the pending call. */
  lemma ParkingKeepsLink(threads: Threads, calls: Calls, targets: Targets, t: ThreadId, id: ControlId, c: CallId)
    requires Linked(threads, calls, targets) && t in threads && threads[t] == Operating(id, Browser(c)) && c in calls
    ensures Linked(threads[t := Parked(id, c)],
                   calls[c := calls[c].(release := Some(t), authorizing := false, watching := true)], targets)
  {}

  lemma StoreKeepsDesk(d: Desk, t: ThreadId)
    requires DeskInv(d) && t in d.threads && d.threads[t].Operating? && d.threads[t].use.Browser?
    ensures DeskInv(Park(d, t)) && DeskInv(Undo(d, t))
  {
    QuietMoveKeepsInv(d, t, Parked(d.threads[t].id, d.threads[t].use.call));
    QuietMoveKeepsInv(d, t, Ending(d.threads[t].id, Finish));
  }

  lemma HandledIsDispatched(threads: Threads, calls: Calls, targets: Targets, t: ThreadId)
    requires Linked(threads, calls, targets) && t in threads && Handles(threads[t]).Some?
    ensures Handles(threads[t]).value in calls ==> calls[Handles(threads[t]).value].dispatched
  {}

  lemma StoreKeepsLink(d: Desk, calls: Calls, targets: Targets, t: ThreadId, contextDone: bool)
    requires Linked(d.threads, calls, targets)
    requires t in d.threads && d.threads[t].Operating? && d.threads[t].use.Browser?
    ensures
      var (calls', kept) := AuthorizeStoreCalls(calls, d.threads[t].use.call, t, contextDone);
      Linked((if kept then Park(d, t) else Undo(d, t)).threads, calls', targets)
  {
    var Operating(id, Browser(c)) := d.threads[t];
    var (calls', kept) := AuthorizeStoreCalls(calls, c, t, contextDone);
    if kept {
      ParkingKeepsLink(d.threads, calls, targets, t, id, c);
    } else {
      LeavingKeepsLink(d.threads, calls, targets, t, Ending(id, Finish), calls');
    }
  }

  lemma AuthorizeStoreKeepsInvariant(s: System, t: ThreadId, contextDone: bool)
    requires SystemInv(s) && AuthorizeStoreStep(s, t, contextDone).Some?
    ensures SystemInv(AuthorizeStoreStep(s, t, contextDone).value)
  {
    var c := s.desk.threads[t].use.call;
    HandledIsDispatched(s.desk.threads, s.bridge.pending, s.bridge.targets, t);
    StoreCallsLater(s.bridge.pending, c, t, contextDone);
    LaterCallsKeepInv(s.bridge, AuthorizeStoreCalls(s.bridge.pending, c, t, contextDone).0);
    StoreKeepsDesk(s.desk, t);
    StoreKeepsLink(s.desk, s.bridge.pending, s.bridge.targets, t, contextDone);
  }

  // Every run ------------------------------------------------------------------------

  lemma BridgeStepKeepsInvariant(s: System, section: BridgeEvent)
    requires SystemInv(s) && BridgeNext(s.bridge, section).Some?
    ensures SystemInv(s.(bridge := BridgeNext(s.bridge, section).value))
  {
    var b' := BridgeNext(s.bridge, section).value;
    BridgeStepKeepsInv(s.bridge, section);
    BridgeStepKeepsReservations(s.bridge, section);
    LinkKept(s.desk.threads, s.desk.threads, s.bridge.pending, b'.pending, s.bridge.targets, b'.targets);
  }

  lemma DeskStepKeepsInvariant(s: System, step: DeskEvent)
    requires SystemInv(s) && DeskNext(s.desk, step).Some?
    ensures SystemInv(s.(desk := DeskNext(s.desk, step).value))
  {
    DeskStepKeepsInv(s.desk, step);
    DeskStepKeepsParking(s.desk, step);
    LinkKept(s.desk.threads, DeskNext(s.desk, step).value.threads,
             s.bridge.pending, s.bridge.pending, s.bridge.targets, s.bridge.targets);
  }

  lemma StepKeepsInvariant(s: System, e: SystemEvent)
    requires SystemInv(s) && Next(s, e).Some?
    ensures SystemInv(Next(s, e).value)
  {
    match e
    case OfDesk(step) => DeskStepKeepsInvariant(s, step);
    case OfBridge(section) => BridgeStepKeepsInvariant(s, section);
    case AuthorizeStart(t, i) => AuthorizeStartKeepsInvariant(s, t, i);
    case AuthorizeUngated(t) => HandlerDoneKeepsInvariant(s, t);
    case AuthorizeFail(t) => HandlerDoneKeepsInvariant(s, t);
    case AuthorizeStore(t, contextDone) => AuthorizeStoreKeepsInvariant(s, t, contextDone);
    case Receive(i) => ReceiveKeepsInvariant(s, i);
    case Connect(browser, boot, stream) => ConnectKeepsInvariant(s, browser, boot, stream);
    case CloseBridge => CloseBridgeKeepsInvariant(s);
  }

  /** Every state of every run satisfies the invariant. */
  lemma {:induction false} EveryRunKeepsInvariant(es: seq<SystemEvent>, ss: seq<System>, n: nat)
    requires IsRun(es, ss) && n <= |es|
    ensures SystemInv(ss[n])
  {
    hide SystemInv, Next;
    if n == 0 {
      InitialSystemInv();
    } else {
      EveryRunKeepsInvariant(es, ss, n - 1);
      assert Next(ss[n - 1], es[n - 1]) == Some(ss[n]);
      StepKeepsInvariant(ss[n - 1], es[n - 1]);
    }
  }

  lemma ReachableKeepsInvariant(s: System)
    requires Reachable(s)
    ensures SystemInv(s)
  {
    hide SystemInv, Next;
    var es, ss :| IsRun(es, ss) && ss[|es|] == s;
    EveryRunKeepsInvariant(es, ss, |es|);
  }

  lemma RunReaches(es: seq<SystemEvent>, ss: seq<System>, i: nat)
    requires IsRun(es, ss) && i <= |es|
    ensures Reachable(ss[i])
  {
    hide Next;
    forall k | 0 <= k < i
      ensures Next(ss[k], es[k]) == Some(ss[k + 1])
    {
      assert Next(ss[k], es[k]) == Some(ss[k + 1]);
    }
    assert IsRun(es[..i], ss[..i + 1]) && ss[..i + 1][|es[..i]|] == ss[i];
  }

  lemma InitialIsReachable()
    ensures Reachable(InitialSystem)
  {
    assert IsRun([], [InitialSystem]);
  }

  lemma ReachesNext(s: System, e: SystemEvent)
    requires Reachable(s) && Next(s, e).Some?
    ensures Reachable(Next(s, e).value)
  {
    hide Next;
    var es, ss :| IsRun(es, ss) && ss[|es|] == s;
    var es', ss' := es + [e], ss + [Next(s, e).value];
    forall i | 0 <= i < |es'|
      ensures Next(ss'[i], es'[i]) == Some(ss'[i + 1])
    {
      if i < |es| {
        assert Next(ss[i], es[i]) == Some(ss[i + 1]);
      }
    }
    assert IsRun(es', ss') && ss'[|es'|] == Next(s, e).value;
  }
}
