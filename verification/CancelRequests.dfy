/** What becomes of a browser call whose desktop operation is cancelled, or whose
    caller leaves: the request to stop it, from the queue to the browser. */
module CancelRequests {
  import opened Basics
  import opened Coordination
  import opened DesktopGate
  import opened DesktopGateSafety
  import opened BrowserBridge
  import opened BridgeSafety
  import opened DesktopHistory
  import opened DesktopProtocol
  import opened DesktopTheorems

  // Into the queue ---------------------------------------------------------------------------

  /** The queue that cancel requests for the call go to: that of the last stream of
      its browser, lost or not. */
  function RequestsFor(b: Bridge, p: PendingCall): seq<CallId>
    requires p.browser in b.instances && b.instances[p.browser].stream in b.streams
  {
    b.streams[b.instances[p.browser].stream].controls
  }

  lemma CallsHaveStreams(s: System, c: CallId)
    requires Reachable(s) && c in s.bridge.pending
    ensures
      var b := s.bridge;
      var p := b.pending[c];
      && p.browser in b.instances && b.instances[p.browser].boot == p.boot
      && b.instances[p.browser].stream in b.streams
  {
    hide Reachable;
    ReachableKeepsInvariant(s);
  }

  /** The call is dropped, or its context is cancelled and a request to stop it is
      at the end of the queue, unless there was one before or the queue is full. */
  ghost predicate AskedToStop(b: Bridge, c: CallId, b': Bridge)
    requires c in b.pending
  {
    var p := b.pending[c];
    if !p.dispatched then c !in b'.pending
    else
      && c in b'.pending && b'.pending[c].browser == p.browser && b'.pending[c].contextDone
      && (p.abandoned ==> b'.pending[c].abandoned)
      && p.browser in b.instances && b.instances[p.browser].stream in b.streams
      && b'.instances == b.instances && b.instances[p.browser].stream in b'.streams
      && b'.pending[c].cancelSent == (p.cancelSent || |RequestsFor(b, p)| < 256)
      && RequestsFor(b', p) == RequestsFor(b, p) + if b'.pending[c].cancelSent && !p.cancelSent then [c] else []
  }

  lemma CancellingAsks(b: Bridge, c: CallId)
    requires c in b.pending && b.pending[c].browser in b.instances
    requires b.instances[b.pending[c].browser].boot == b.pending[c].boot
    requires b.instances[b.pending[c].browser].stream in b.streams
    ensures AskedToStop(b, c, CancelSection(b, c))
  {
    hide CancelledCalls, PutControl;
    var p := b.pending[c];
    var stream := b.instances[p.browser].stream;
    CancelledShape(b.pending, c, true);
    CancelledShape(b.pending, c, p.cancelSent);
    QueuedShape(b.streams, stream, c);
  }

  lemma CancelledShape(calls: Calls, c: CallId, sent: bool)
    requires c in calls
    ensures
      var calls' := CancelledCalls(calls, c, sent);
      if !calls[c].dispatched then c !in calls'
      else c in calls' && calls'[c] == calls[c].(contextDone := true, cancelSent := sent)
  {}

  lemma QueuedShape(streams: Streams, stream: StreamId, c: CallId)
    requires stream in streams
    ensures
      var streams' := PutControl(streams, stream, c);
      stream in streams' && streams'[stream].controls == streams[stream].controls + [c]
  {}

  /** When the watcher runs or the caller leaves, a call that was not dispatched is
      dropped; any other is cancelled and a request to stop it is queued, once,
      unless 256 are queued already. The stream of the queue may be lost. */
  lemma CancellationQueuesRequest(s: System, e: BridgeEvent, c: CallId)
    requires Reachable(s) && c in s.bridge.pending && (e == GateWatch(c) || e == Leave(c))
    requires BridgeNext(s.bridge, e).Some?
    ensures AskedToStop(s.bridge, c, BridgeNext(s.bridge, e).value)
    ensures e.Leave? && s.bridge.pending[c].dispatched ==> BridgeNext(s.bridge, e).value.pending[c].abandoned
  {
    hide Reachable, CancelSection;
    CallsHaveStreams(s, c);
    CancellingAsks(s.bridge, c);
    CancellingAsks(s.bridge.(pending := s.bridge.pending[c := Abandoned(s.bridge.pending[c])]), c);
  }

  /** No call is asked to stop twice. */
  lemma CancelIsRequestedOnce(s: System, c: CallId)
    requires Reachable(s) && c in s.bridge.pending
    ensures forall r :: r in s.bridge.streams && c in s.bridge.streams[r].controls ==>
      && s.bridge.pending[c].cancelSent && NoDuplicates(s.bridge.streams[r].controls)
      && forall q :: q in s.bridge.streams && c in s.bridge.streams[q].controls ==> q == r
  {
    ReachableKeepsInvariant(s);
  }

  /** The step takes the desktop from whoever has it. */
  predicate TakesDesktop(d: Desk, e: DeskEvent) {
    (d.core.status == Owned && EndsOwnership(d, e)) || (e.Close? && !d.core.closed)
  }

  lemma TakingCancels(d: Desk, e: DeskEvent, t: ThreadId)
    requires DeskInv(d) && DeskNext(d, e).Some? && TakesDesktop(d, e) && t in d.threads && d.threads[t].Parked?
    ensures t in DeskNext(d, e).value.core.cancelled
  {
    hide OneStopper, AuthorityKept, AdmissionHeld, ObservationsOwned, ObservationsCurrent, ActedOnce, ReleasedOnce;
    assert Holding(d.threads[t]) && InFlight(d.threads[t]);
    assert (e.ShowFailed? || e.StopFinish?) ==> Holding(d.threads[e.t]);
  }

  /** When the desktop is taken from a call that holds a reservation, its operation
      is cancelled, the watcher of the call can run, and then the call is cancelled
      and its request queued. */
  lemma TakingAsksTheCall(s: System, e: DeskEvent, c: CallId)
    requires Reachable(s) && Stores(s, c) && DeskNext(s.desk, e).Some? && TakesDesktop(s.desk, e)
    ensures
      var s' := Next(s, OfDesk(e)).value;
      var after := Next(s', OfBridge(GateWatch(c)));
      && s.bridge.pending[c].release.value in s'.desk.core.cancelled
      && after.Some? && AskedToStop(s.bridge, c, after.value.bridge)
  {
    hide Reachable, DeskNext, DeskInv, TakesDesktop, AskedToStop, CancelSection;
    ReachableKeepsInvariant(s);
    TakingCancels(s.desk, e, s.bridge.pending[c].release.value);
    CancellationQueuesRequest(s, GateWatch(c), c);
  }

  // Out of the queue --------------------------------------------------------------------------

  /** The request waits where the dispatch loop of a live stream will take it. */
  predicate WaitsOnline(b: Bridge, c: CallId)
    requires c in b.pending
  {
    var p := b.pending[c];
    && p.browser in b.instances && b.instances[p.browser].online
    && b.instances[p.browser].stream in b.streams && c in RequestsFor(b, p)
  }

  /** The dispatch loop takes the request, finds it valid and sends it. */
  predicate HandsOver(b: Bridge, e: SystemEvent, c: CallId) {
    && e.OfBridge? && e.section.DispatchCancel? && DispatchCancelSection(b, e.section.stream).Some?
    && b.streams[e.section.stream].controls[0] == c
    && Current(b, e.section.stream) && c in b.pending && b.pending[c].boot == b.streams[e.section.stream].boot
  }

  /** The stream of the call's browser is lost, or replaced by another. */
  predicate LosesStream(b: Bridge, e: SystemEvent, c: CallId)
    requires c in b.pending
  {
    || (e.Connect? && e.browser == b.pending[c].browser)
    || (e.OfBridge? && e.section.Disconnect? && e.section.stream in b.streams && Current(b, e.section.stream)
        && b.streams[e.section.stream].browser == b.pending[c].browser)
  }

  /** Both states have the call, asked to stop; what happened to its request. */
  ghost predicate Moves(b: Bridge, e: SystemEvent, b': Bridge, c: CallId)
    requires c in b.pending && c in b'.pending
  {
    && b'.pending[c].cancelSent && b'.pending[c].browser == b.pending[c].browser
    && (WaitsOnline(b', c) <==> WaitsOnline(b, c) && !HandsOver(b, e, c) && !LosesStream(b, e, c))
    && (HandsOver(b, e, c) ==> WaitsOnline(b, c))
  }

  lemma TailWithoutHead(queue: seq<CallId>, c: CallId)
    requires NoDuplicates(queue) && queue != []
    ensures c in queue[1..] <==> c in queue && c != queue[0]
    ensures queue[0] in queue
  {
    assert queue == [queue[0]] + queue[1..];
    assert forall i :: 0 <= i < |queue[1..]| ==> queue[1..][i] == queue[i + 1];
  }

  /** The loop takes the head of one queue, and nothing else changes for a call that
      stays pending. */
  lemma RequestTaken(b: Bridge, r: StreamId, c: CallId)
    requires CancelsOnce(b.pending, b.streams) && c in b.pending && DispatchCancelSection(b, r).Some?
    requires c in DispatchCancelSection(b, r).value.pending
    ensures
      var b' := DispatchCancelSection(b, r).value;
      && b'.pending[c] == b.pending[c] && b'.instances == b.instances && b'.streams.Keys == b.streams.Keys
      && (forall s :: s in b.streams && s != r ==> b'.streams[s] == b.streams[s])
      && (c in b'.streams[r].controls <==> c in b.streams[r].controls && c != b.streams[r].controls[0])
    ensures c == b.streams[r].controls[0] ==> c in b.streams[r].controls
    ensures c in b.streams[r].controls ==> b.pending[c].browser == b.streams[r].browser
    ensures Serving(b, r)
  {
    hide NoDuplicates;
    assert NoDuplicates(b.streams[r].controls);
    TailWithoutHead(b.streams[r].controls, c);
  }

  lemma DispatchCancelMoves(b: Bridge, r: StreamId, c: CallId)
    requires BridgeInv(b) && c in b.pending && b.pending[c].cancelSent && DispatchCancelSection(b, r).Some?
    requires c in DispatchCancelSection(b, r).value.pending
    ensures Moves(b, OfBridge(DispatchCancel(r)), DispatchCancelSection(b, r).value, c)
  {
    hide WellFormed, DispatchedIffMarked, SentAtMostOnce, QueuesOk, MarkedOnce, OnOwnStream, CancelsOnce,
         DispatchCancelSection;
    RequestTaken(b, r, c);
  }

  lemma DisconnectMoves(b: Bridge, r: StreamId, c: CallId)
    requires BridgeInv(b) && c in b.pending && b.pending[c].cancelSent && r in b.streams
    requires c in DisconnectSection(b, r).pending
    ensures Moves(b, OfBridge(Disconnect(r)), DisconnectSection(b, r), c)
  {
    hide WellFormed, DispatchedIffMarked, SentAtMostOnce, QueuesOk, MarkedOnce, OnOwnStream, CancelsOnce;
  }

  /** The call and its request are as they were. */
  ghost predicate Untouched(b: Bridge, b': Bridge, c: CallId) {
    && c in b.pending && c in b'.pending
    && b'.pending[c].browser == b.pending[c].browser && b'.pending[c].cancelSent == b.pending[c].cancelSent
    && b'.instances == b.instances && b'.streams.Keys == b.streams.Keys
    && forall s :: s in b.streams ==> (c in b'.streams[s].controls <==> c in b.streams[s].controls)
  }

  lemma UntouchedMoves(b: Bridge, e: SystemEvent, b': Bridge, c: CallId)
    requires Untouched(b, b', c) && b.pending[c].cancelSent && !HandsOver(b, e, c) && !LosesStream(b, e, c)
    ensures Moves(b, e, b', c)
  {
    hide HandsOver, LosesStream;
  }

  lemma ControlAdded(streams: Streams, s: StreamId, id: CallId, c: CallId)
    requires s in streams && c != id
    ensures
      var streams' := PutControl(streams, s, id);
      && streams'.Keys == streams.Keys
      && forall r :: r in streams ==> (c in streams'[r].controls <==> c in streams[r].controls)
  {}

  lemma TargetTakesOnce(b: Bridge, p: PendingCall)
    ensures CancelTarget(b, p).Some? ==> !p.cancelSent && CancelTarget(b, p).value in b.streams
  {}

  lemma CancelledStaysAsked(calls: Calls, id: CallId, sent: bool, c: CallId)
    requires id in calls && c in calls && calls[c].cancelSent && (c == id ==> sent)
    requires c in CancelledCalls(calls, id, sent)
    ensures CancelledCalls(calls, id, sent)[c].cancelSent
    ensures CancelledCalls(calls, id, sent)[c].browser == calls[c].browser
  {}

  lemma CancelIs(b: Bridge, id: CallId)
    requires id in b.pending
    ensures
      var b' := CancelSection(b, id);
      var target := CancelTarget(b, b.pending[id]);
      && b'.instances == b.instances
      && b'.pending == CancelledCalls(b.pending, id, target.Some? || b.pending[id].cancelSent)
      && (target.None? ==> b'.streams == b.streams)
      && (target.Some? ==> target.value in b.streams && b'.streams == PutControl(b.streams, target.value, id))
  {
    hide CancelTarget, CancelledCalls, PutControl;
    TargetTakesOnce(b, b.pending[id]);
  }

  /** No cancellation touches a call that has been asked to stop. */
  lemma CancelUntouched(b: Bridge, id: CallId, c: CallId)
    requires id in b.pending && c in b.pending && b.pending[c].cancelSent && c in CancelSection(b, id).pending
    ensures Untouched(b, CancelSection(b, id), c)
  {
    hide CancelTarget, CancelSection, CancelledCalls, PutControl;
    var target := CancelTarget(b, b.pending[id]);
    TargetTakesOnce(b, b.pending[id]);
    CancelIs(b, id);
    CancelledStaysAsked(b.pending, id, target.Some? || b.pending[id].cancelSent, c);
    if target.Some? {
      ControlAdded(b.streams, target.value, id, c);
    }
  }

  lemma LeaveUntouched(b: Bridge, id: CallId, c: CallId)
    requires c in b.pending && b.pending[c].cancelSent && c in LeaveSection(b, id).pending
    ensures Untouched(b, LeaveSection(b, id), c)
  {
    hide CancelSection;
    if id in b.pending {
      CancelUntouched(b.(pending := b.pending[id := Abandoned(b.pending[id])]), id, c);
    }
  }

  lemma CommandDropped(streams: Streams, r: StreamId)
    requires r in streams && streams[r].commands != []
    ensures
      var streams' := DropCommand(streams, r);
      streams'.Keys == streams.Keys && forall s :: s in streams ==> streams'[s].controls == streams[s].controls
  {}

  lemma DispatchShape(b: Bridge, r: StreamId, late: bool, c: CallId)
    requires c in b.pending && DispatchSection(b, r, late).Some? && c in DispatchSection(b, r, late).value.pending
    ensures r in b.streams && b.streams[r].commands != []
    ensures
      var b' := DispatchSection(b, r, late).value;
      && b'.instances == b.instances && b'.streams == DropCommand(b.streams, r)
      && b'.pending[c].browser == b.pending[c].browser && b'.pending[c].cancelSent == b.pending[c].cancelSent
  {
    hide Serving, Dispatchable, DropCommand;
    var id := b.streams[r].commands[0];
    if id in b.pending && id != c {
      assert b.pending[id := b.pending[id].(dispatched := true)][c] == b.pending[c];
    }
  }

  lemma DispatchUntouched(b: Bridge, r: StreamId, late: bool, c: CallId)
    requires c in b.pending && DispatchSection(b, r, late).Some? && c in DispatchSection(b, r, late).value.pending
    ensures Untouched(b, DispatchSection(b, r, late).value, c)
  {
    hide DispatchSection, DropCommand;
    DispatchShape(b, r, late, c);
    CommandDropped(b.streams, r);
  }

  /** What the other sections leave alone. */
  lemma SectionUntouched(b: Bridge, e: BridgeEvent, c: CallId)
    requires c in b.pending && c in b.targets && BridgeNext(b, e).Some?
    requires e.SetGate? || e.Register? || e.Enqueue? || e.Dispatch? || e.StopContext?
    requires c in BridgeNext(b, e).value.pending
    ensures Untouched(b, BridgeNext(b, e).value, c)
  {
    hide DispatchSection;
    if e.Dispatch? {
      DispatchUntouched(b, e.stream, e.late, c);
    }
  }

  lemma SectionMoves(b: Bridge, e: BridgeEvent, c: CallId)
    requires BridgeInv(b) && c in b.pending && b.pending[c].cancelSent && BridgeNext(b, e).Some?
    requires e.SetGate? || e.Register? || e.Enqueue? || e.Dispatch? || e.StopContext?
    requires c in BridgeNext(b, e).value.pending
    ensures Moves(b, OfBridge(e), BridgeNext(b, e).value, c)
  {
    hide BridgeInv, BridgeNext, Moves, Untouched;
    IsTargeted(b, c);
    SectionUntouched(b, e, c);
    UntouchedMoves(b, OfBridge(e), BridgeNext(b, e).value, c);
  }

  lemma BridgeMoves(b: Bridge, e: BridgeEvent, c: CallId)
    requires BridgeInv(b) && c in b.pending && b.pending[c].cancelSent && BridgeNext(b, e).Some?
    requires c in BridgeNext(b, e).value.pending
    ensures Moves(b, OfBridge(e), BridgeNext(b, e).value, c)
  {
    hide BridgeInv, Moves, Untouched, CancelSection, LeaveSection, DisconnectSection, DispatchCancelSection,
         DispatchSection;
    match e
    case Leave(id) =>
      LeaveUntouched(b, id, c);
      UntouchedMoves(b, OfBridge(e), LeaveSection(b, id), c);
    case GateWatch(id) =>
      CancelUntouched(b, id, c);
      UntouchedMoves(b, OfBridge(e), CancelSection(b, id), c);
    case DispatchCancel(r) => DispatchCancelMoves(b, r, c);
    case Disconnect(r) => DisconnectMoves(b, r, c);
    case _ => SectionMoves(b, e, c);
  }

  lemma ConnectMoves(s: System, e: SystemEvent, c: CallId)
    requires BridgeInv(s.bridge) && c in s.bridge.pending && s.bridge.pending[c].cancelSent
    requires e.Connect? && Next(s, e).Some? && c in Next(s, e).value.bridge.pending
    ensures Moves(s.bridge, e, Next(s, e).value.bridge, c)
  {
    hide WellFormed, DispatchedIffMarked, SentAtMostOnce, QueuesOk, MarkedOnce, CancelsOnce, ReleaseParked,
         SendsAfterConnect, DeskNext, BridgeNext;
  }

  /** The steps of the authorize handler and the receipt of a result. */
  lemma HandlerMoves(s: System, e: SystemEvent, c: CallId)
    requires c in s.bridge.pending && s.bridge.pending[c].cancelSent && !e.OfBridge? && !e.Connect?
    requires Next(s, e).Some? && c in Next(s, e).value.bridge.pending
    ensures Moves(s.bridge, e, Next(s, e).value.bridge, c)
  {
    hide DeskNext, BridgeNext, ReleaseParked, Moves;
    UntouchedMoves(s.bridge, e, Next(s, e).value.bridge, c);
  }

  lemma RequestMoves(s: System, e: SystemEvent, c: CallId)
    requires SystemInv(s) && c in s.bridge.pending && s.bridge.pending[c].cancelSent
    requires Next(s, e).Some? && c in Next(s, e).value.bridge.pending
    ensures Moves(s.bridge, e, Next(s, e).value.bridge, c)
  {
    hide BridgeInv, DeskInv, Linked, Moves, BridgeNext, DeskNext, ConnectStep, ReceiveStep, AuthorizeStartStep,
         AuthorizeStoreStep, AuthorizeUngatedStep, AuthorizeFailStep;
    match e
    case OfBridge(section) => BridgeMoves(s.bridge, section, c);
    case Connect(_, _, _) => ConnectMoves(s, e, c);
    case _ => HandlerMoves(s, e, c);
  }

  // A run of the system ---------------------------------------------------------------------------

  /** The step queues the request of the call. */
  ghost predicate Asks(b: Bridge, b': Bridge, c: CallId) {
    c in b.pending && c in b'.pending && !b.pending[c].cancelSent && b'.pending[c].cancelSent
  }

  lemma SectionAsks(b: Bridge, e: BridgeEvent, c: CallId)
    requires c in b.targets && BridgeNext(b, e).Some? && Asks(b, BridgeNext(b, e).value, c)
    ensures e == GateWatch(c) || e == Leave(c)
  {
    hide RegisterSection, EnqueueSection, DispatchSection, DisconnectSection, DispatchCancelSection, CancelSection,
         LeaveSection;
    match e
    case Leave(id) => CancelAsks(b, id, c);
    case GateWatch(id) => CancelAsks(b, id, c);
    case Disconnect(r) => OthersAsk(b, e, c);
    case DispatchCancel(r) => OthersAsk(b, e, c);
    case _ => SectionUntouched(b, e, c);
  }

  lemma CancelAsks(b: Bridge, id: CallId, c: CallId)
    requires c in b.pending
    ensures id in b.pending && id != c ==> !Asks(b, CancelSection(b, id), c)
    ensures id != c ==> !Asks(b, LeaveSection(b, id), c)
  {}

  lemma OthersAsk(b: Bridge, e: BridgeEvent, c: CallId)
    requires BridgeNext(b, e).Some? && (e.Disconnect? || e.DispatchCancel?)
    ensures !Asks(b, BridgeNext(b, e).value, c)
  {}

  lemma OnlyCancelAsks(s: System, e: SystemEvent, c: CallId)
    requires SystemInv(s) && Next(s, e).Some? && Asks(s.bridge, Next(s, e).value.bridge, c)
    ensures e == OfBridge(GateWatch(c)) || e == OfBridge(Leave(c))
  {
    hide BridgeInv, DeskInv, Linked, BridgeNext, DeskNext, ReleaseParked, SendsAfterConnect;
    IsTargeted(s.bridge, c);
    if e.OfBridge? {
      SectionAsks(s.bridge, e.section, c);
    }
  }

  predicate Online(b: Bridge, c: CallId)
    requires c in b.pending
  {
    b.pending[c].browser in b.instances && b.instances[b.pending[c].browser].online
  }

  /** A request is queued where a live stream will take it exactly if the browser of
      the call is online. */
  lemma AskingWaits(s: System, e: SystemEvent, c: CallId)
    requires Reachable(s) && Next(s, e).Some? && Asks(s.bridge, Next(s, e).value.bridge, c)
    ensures WaitsOnline(Next(s, e).value.bridge, c) <==> Online(s.bridge, c)
  {
    hide SystemInv, BridgeNext, Reachable;
    ReachableKeepsInvariant(s);
    OnlyCancelAsks(s, e, c);
    CancellationQueuesRequest(s, e.section, c);
  }

  /** The request of the call is queued at step `q`, and the call is still pending
      at `j`. */
  ghost predicate AskedAt(es: seq<SystemEvent>, ss: seq<System>, q: nat, j: nat, c: CallId) {
    IsRun(es, ss) && q < j <= |es| && Asks(ss[q].bridge, ss[q + 1].bridge, c) && c in ss[j].bridge.pending
  }

  lemma AskedBefore(es: seq<SystemEvent>, ss: seq<System>, q: nat, j: nat, c: CallId)
    requires AskedAt(es, ss, q, j, c)
    ensures forall k: nat :: q < k <= j ==> AskedAt(es, ss, q, k, c)
  {
    hide SystemInv, Next;
    EveryRunKeepsInvariant(es, ss, q);
    PendingIsTargeted(ss[q], c);
    WasPending(es, ss, q, j, c);
  }

  ghost predicate HandedAt(es: seq<SystemEvent>, ss: seq<System>, k: nat, c: CallId)
    requires |ss| == |es| + 1 && k < |es|
  {
    HandsOver(ss[k].bridge, es[k], c)
  }

  ghost predicate LostAt(es: seq<SystemEvent>, ss: seq<System>, k: nat, c: CallId)
    requires |ss| == |es| + 1 && k < |es|
  {
    c in ss[k].bridge.pending && LosesStream(ss[k].bridge, es[k], c)
  }

  lemma {:induction false} RequestWaits(es: seq<SystemEvent>, ss: seq<System>, q: nat, j: nat, c: CallId)
    requires AskedAt(es, ss, q, j, c)
    ensures ss[j].bridge.pending[c].cancelSent
    ensures WaitsOnline(ss[j].bridge, c) <==>
      Online(ss[q].bridge, c) && forall k: nat :: q < k < j ==> !HandedAt(es, ss, k, c) && !LostAt(es, ss, k, c)
    decreases j
  {
    hide SystemInv, Next, WaitsOnline, HandsOver, LosesStream, Online, Reachable;
    var s, e := ss[j - 1], es[j - 1];
    assert Next(s, e) == Some(ss[j]);
    if j == q + 1 {
      RunReaches(es, ss, q);
      AskingWaits(s, e, c);
    } else {
      AskedBefore(es, ss, q, j, c);
      RequestWaits(es, ss, q, j - 1, c);
      EveryRunKeepsInvariant(es, ss, j - 1);
      RequestMoves(s, e, c);
      assert HandedAt(es, ss, j - 1, c) == HandsOver(s.bridge, e, c);
      assert LostAt(es, ss, j - 1, c) == LosesStream(s.bridge, e, c);
    }
  }

  lemma HandedFromOnline(es: seq<SystemEvent>, ss: seq<System>, q: nat, k: nat, j: nat, c: CallId)
    requires AskedAt(es, ss, q, j, c) && q < k < j && HandedAt(es, ss, k, c)
    ensures AskedAt(es, ss, q, k, c) && WaitsOnline(ss[k].bridge, c) && !LostAt(es, ss, k, c)
  {
    hide SystemInv, Next, WaitsOnline;
    AskedBefore(es, ss, q, j, c);
    assert AskedAt(es, ss, q, k, c) && AskedAt(es, ss, q, k + 1, c);
    RequestWaits(es, ss, q, k, c);
    EveryRunKeepsInvariant(es, ss, k);
    assert Next(ss[k], es[k]) == Some(ss[k + 1]);
    RequestMoves(ss[k], es[k], c);
  }

  /** Lost before the dispatch loop took the request. */
  ghost predicate LostFirst(es: seq<SystemEvent>, ss: seq<System>, q: nat, k: nat, c: CallId)
    requires |ss| == |es| + 1 && k < |es|
  {
    LostAt(es, ss, k, c) && forall i: nat :: q < i < k ==> !HandedAt(es, ss, i, c)
  }

  /** The request of a call that stays pending neither waits on a live stream nor has
      been handed to one exactly if it was queued while the browser was offline, or
      the stream was lost or replaced before its loop took the request. */
  lemma RequestIsLostExactly(es: seq<SystemEvent>, ss: seq<System>, q: nat, j: nat, c: CallId)
    requires AskedAt(es, ss, q, j, c)
    ensures
      (!WaitsOnline(ss[j].bridge, c) && forall k: nat :: q < k < j ==> !HandedAt(es, ss, k, c)) <==>
        (!Online(ss[q].bridge, c) || exists k: nat :: q < k < j && LostFirst(es, ss, q, k, c))
  {
    hide WaitsOnline, HandedAt, LostAt, Online, Next;
    RequestWaits(es, ss, q, j, c);
    forall k: nat | q < k < j && HandedAt(es, ss, k, c)
      ensures Online(ss[q].bridge, c)
      ensures forall i: nat :: q < i < k ==> !HandedAt(es, ss, i, c) && !LostAt(es, ss, i, c)
      ensures !LostAt(es, ss, k, c)
    {
      HandedFromOnline(es, ss, q, k, j, c);
      RequestWaits(es, ss, q, k, c);
    }
    var handed := exists k: nat :: q < k < j && HandedAt(es, ss, k, c);
    if !WaitsOnline(ss[j].bridge, c) && !handed && Online(ss[q].bridge, c) {
      var k: nat :| q < k < j && LostAt(es, ss, k, c);
      assert LostFirst(es, ss, q, k, c);
    }
    if k: nat :| q < k < j && LostFirst(es, ss, q, k, c) {
      assert LostAt(es, ss, k, c);
    }
  }

  /** And a request that is lost stays lost: no later step hands it over. */
  lemma {:induction false} LostForGood(es: seq<SystemEvent>, ss: seq<System>, i: nat, j: nat, c: CallId)
    requires IsRun(es, ss) && i <= j <= |es| && c in ss[i].bridge.pending && c in ss[j].bridge.pending
    requires ss[i].bridge.pending[c].cancelSent && !WaitsOnline(ss[i].bridge, c)
    ensures ss[j].bridge.pending[c].cancelSent && !WaitsOnline(ss[j].bridge, c)
    ensures forall k: nat :: i <= k < j ==> !HandedAt(es, ss, k, c)
    decreases j
  {
    hide SystemInv, Next, WaitsOnline, HandsOver, LosesStream;
    if i == j {
    } else {
      EveryRunKeepsInvariant(es, ss, i);
      PendingIsTargeted(ss[i], c);
      WasPending(es, ss, i, j, c);
      LostForGood(es, ss, i, j - 1, c);
      EveryRunKeepsInvariant(es, ss, j - 1);
      assert Next(ss[j - 1], es[j - 1]) == Some(ss[j]);
      RequestMoves(ss[j - 1], es[j - 1], c);
    }
  }

  // A request that is lost ---------------------------------------------------------------------------

  /** Call 5 is dispatched to boot 1 of browser 1, on stream 10. */
  function DispatchedCall(): PendingCall {
    PendingCall(1, 1, NO_CONTROL, false, None, false, false, false, true, false)
  }

  function DispatchedBridge(p: PendingCall): Bridge {
    Bridge(map[5 := p], map[1 := Instance(1, 10, true)], map[10 := Stream(1, 1, [], [])], true, false,
           map[5 := 10], {5}, map[5 := 0], [Mark(5, 10)])
  }

  lemma BridgeReachesNext(d: Desk, b: Bridge, e: BridgeEvent, b': Bridge)
    requires Reachable(System(d, b)) && BridgeNext(b, e) == Some(b')
    ensures Reachable(System(d, b'))
  {
    hide BridgeNext, Reachable;
    ReachesNext(System(d, b), OfBridge(e));
  }

  lemma BrowserIsConnected() returns (b: Bridge)
    ensures Reachable(System(InitialDesk, b))
    ensures b == InitialBridge.(gateSet := true, instances := map[1 := Instance(1, 10, true)],
                                streams := map[10 := Stream(1, 1, [], [])])
  {
    hide Reachable;
    InitialIsReachable();
    var b1 := InitialBridge.(gateSet := true);
    BridgeReachesNext(InitialDesk, InitialBridge, SetGate, b1);
    b := ConnectSection(b1, 1, 1, 10).value;
    ReachesNext(System(InitialDesk, b1), Connect(1, 1, 10));
    assert ReleaseParked(InitialDesk, {}) == InitialDesk;
  }

  lemma CallIsQueued() returns (b: Bridge)
    ensures Reachable(System(InitialDesk, b))
    ensures b == DispatchedBridge(DispatchedCall().(dispatched := false))
                   .(marks := [], streams := map[10 := Stream(1, 1, [5], [])])
  {
    hide Reachable;
    var b0 := BrowserIsConnected();
    var b1 := RegisterSection(b0, 5, 1, NO_CONTROL, true).value;
    BridgeReachesNext(InitialDesk, b0, Register(5, 1, NO_CONTROL, true), b1);
    b := EnqueueSection(b1, 5).value;
    BridgeReachesNext(InitialDesk, b1, Enqueue(5), b);
    assert [] + [5] == [5];
    assert b.streams[10] == Stream(1, 1, [5], []) && b.streams.Keys == {10};
    assert b.streams == map[10 := Stream(1, 1, [5], [])];
    assert b.pending == map[5 := DispatchedCall().(dispatched := false)];
    assert b.targets == map[5 := 10] && b.sends == map[5 := 0] && b.enqueued == {5};
  }

  lemma CallIsDispatched()
    ensures Reachable(System(InitialDesk, DispatchedBridge(DispatchedCall())))
  {
    hide Reachable;
    var b := CallIsQueued();
    var b' := DispatchSection(b, 10, false).value;
    assert [5][1..] == [];
    assert b'.streams == map[10 := Stream(1, 1, [], [])];
    assert b'.pending == map[5 := DispatchedCall()] && b'.marks == [Mark(5, 10)];
    BridgeReachesNext(InitialDesk, b, Dispatch(10, false), b');
  }

  lemma DeskReachesNextBeside(d: Desk, b: Bridge, e: DeskEvent, d': Desk)
    requires Reachable(System(d, b)) && DeskNext(d, e) == Some(d')
    ensures Reachable(System(d', b))
  {
    hide DeskNext, Reachable;
    ReachesNext(System(d, b), OfDesk(e));
  }

  /** Its authorize handler is thread 7. */
  lemma HandlerStarts() returns (d: Desk, b: Bridge)
    ensures Reachable(System(d, b)) && b == DispatchedBridge(DispatchedCall().(authorizing := true))
    ensures d == InitialDesk.To(7, BeginChecking(NO_CONTROL, Browser(5)))
  {
    hide Reachable, DeskNext, BridgeNext;
    CallIsDispatched();
    var before := DispatchedBridge(DispatchedCall());
    b := DispatchedBridge(DispatchedCall().(authorizing := true));
    assert before.pending[5 := before.pending[5].(authorizing := true)] == b.pending;
    d := InitialDesk.To(7, BeginChecking(NO_CONTROL, Browser(5)));
    ReachesNext(System(InitialDesk, before), AuthorizeStart(7, Identity(5, 1, 1)));
  }

  /** It asks for the desktop. */
  lemma CallAsksForDesktop() returns (d: Desk, b: Bridge)
    ensures Reachable(System(d, b)) && b == DispatchedBridge(DispatchedCall().(authorizing := true))
    ensures d == InitialDesk.Take(7).To(7, BeginHolding(NO_CONTROL, Browser(5)))
  {
    hide Reachable;
    var d1;
    d1, b := HandlerStarts();
    var d2 := d1.To(7, BeginWaiting(NO_CONTROL, Browser(5)));
    DeskReachesNextBeside(d1, b, BeginCheck(7), d2);
    var d3 := d2.Take(7).To(7, BeginHolding(NO_CONTROL, Browser(5)));
    DeskReachesNextBeside(d2, b, BeginTake(7), d3);
    d := InitialDesk.Take(7).To(7, BeginHolding(NO_CONTROL, Browser(5)));
    assert d3.threads == d.threads;
  }

  /** And gets it. */
  lemma CallHoldsDesktop() returns (d: Desk, b: Bridge)
    ensures Reachable(System(d, b)) && d.At(7, Operating(NO_CONTROL, Browser(5))) && 7 !in d.core.cancelled
    ensures b == DispatchedBridge(DispatchedCall().(authorizing := true))
  {
    hide Reachable;
    var d0;
    d0, b := CallAsksForDesktop();
    var d1 := BeginEnterStep(d0, 7, 0).value;
    DeskReachesNextBeside(d0, b, BeginEnter(7, 0), d1);
    d := InvalidatedStep(d1, 7, true).value;
    DeskReachesNextBeside(d1, b, Invalidated(7, true), d);
  }

  lemma CallIsReserved() returns (d: Desk, b: Bridge)
    ensures Reachable(System(d, b))
    ensures b == DispatchedBridge(DispatchedCall().(release := Some(7), watching := true))
  {
    hide Reachable;
    var d0, b0 := CallHoldsDesktop();
    ReachesNext(System(d0, b0), AuthorizeStore(7, false));
    d := Park(d0, 7);
    b := DispatchedBridge(DispatchedCall().(release := Some(7), watching := true));
    assert AuthorizeStoreCalls(b0.pending, 5, 7, false).0 == b.pending;
  }

  /** Its stream is lost, and the watcher runs. */
  lemma StreamIsLost() returns (d: Desk, b: Bridge)
    ensures Reachable(System(d, b)) && !b.stopped && b.streams == map[10 := Stream(1, 1, [], [5])]
    ensures b.pending == map[5 := PendingCall(1, 1, NO_CONTROL, true, Some(7), false, true, true, true, true)]
    ensures b.instances == map[1 := Instance(1, 10, false)]
  {
    hide Reachable;
    var b0;
    d, b0 := CallIsReserved();
    var b1 := DisconnectSection(b0, 10);
    BridgeReachesNext(d, b0, Disconnect(10), b1);
    b := CancelSection(b1, 5);
    BridgeReachesNext(d, b1, GateWatch(5), b);
    assert [] + [5] == [5];
    assert b.streams == map[10 := Stream(1, 1, [], [5])];
  }

  /** Then its browser, of the same boot, connects again. */
  lemma StreamIsReplaced() returns (s: System)
    ensures Reachable(s) && 5 in s.bridge.pending && 1 in s.bridge.instances && 11 in s.bridge.streams
    ensures s.bridge.pending[5] == PendingCall(1, 1, NO_CONTROL, true, Some(7), false, true, true, true, true)
    ensures s.bridge.instances[1] == Instance(1, 11, true) && s.bridge.streams[11] == Stream(1, 1, [], [])
    ensures 10 in s.bridge.streams && s.bridge.streams[10] == Stream(1, 1, [], [5])
  {
    hide Reachable, DeskNext, BridgeNext;
    var d, b := StreamIsLost();
    ReachesNext(System(d, b), Connect(1, 1, 11));
    s := Next(System(d, b), Connect(1, 1, 11)).value;
  }

  /** A call that was cancelled, holds its reservation and is still pending, while its
      browser is online and was not asked to stop it; and will not be. */
  lemma RequestCanBeLost() returns (s: System)
    ensures Reachable(s) && Stores(s, 5) && s.bridge.pending[5].contextDone && s.bridge.pending[5].cancelSent
    ensures Online(s.bridge, 5) && !WaitsOnline(s.bridge, 5)
  {
    s := StreamIsReplaced();
  }
}
