/** What every section of the bridge keeps about pending calls and queues. */
module BridgeSafety {
  import opened Basics
  import opened Coordination
  import opened DesktopGate
  import opened BrowserBridge

  type Targets = map<CallId, StreamId>

  ghost predicate Marked(marks: seq<Mark>, id: CallId) {
    exists k :: 0 <= k < |marks| && marks[k].call == id
  }

  /** An abandoned, authorizing, watched or reserving call in the table was
      dispatched; the operation of a reserving call is watched. */
  ghost predicate CallWellFormed(p: PendingCall) {
    && (p.abandoned || p.authorizing || p.watching || p.cancelSent || p.release.Some? ==> p.dispatched)
    && (p.release.Some? ==> p.watching)
  }

  ghost predicate WellFormed(calls: Calls) {
    forall id :: id in calls ==> CallWellFormed(calls[id])
  }

  /** A pending call waits on the stream of its own generation. */
  ghost predicate OnOwnStream(calls: Calls, targets: Targets, streams: Streams) {
    forall id :: id in calls ==>
      id in targets && targets[id] in streams && Affected(calls[id], streams[targets[id]])
  }

  ghost predicate DispatchedIffMarked(calls: Calls, marks: seq<Mark>) {
    forall id :: id in calls ==> (calls[id].dispatched <==> Marked(marks, id))
  }

  /** No result channel is sent to twice; until a call is abandoned its channel is empty. */
  ghost predicate SentAtMostOnce(calls: Calls, sends: Sends, targets: Targets) {
    && (forall id :: id in sends ==> id in targets && sends[id] <= 1)
    && (forall id :: id in calls && !calls[id].abandoned ==> id in sends && sends[id] == 0)
  }

  ghost predicate GenerationsAgree(instances: map<BrowserId, Instance>, streams: Streams) {
    forall br :: br in instances ==>
      var i := instances[br];
      i.stream in streams && streams[i.stream].browser == br && streams[i.stream].boot == i.boot
  }

  /** Calls of an earlier boot of their browser never stay in the table. */
  ghost predicate CurrentGeneration(calls: Calls, instances: map<BrowserId, Instance>) {
    forall id :: id in calls ==> calls[id].browser in instances && instances[calls[id].browser].boot == calls[id].boot
  }

  /** A command sits in the queue of its own stream, once, until it is taken; a
      dispatched one has left for good. */
  ghost predicate CommandsOk(s: StreamId, commands: seq<CallId>, targets: Targets,
                             enqueued: set<CallId>, marks: seq<Mark>)
  {
    && NoDuplicates(commands)
    && forall id :: id in commands ==>
      id in enqueued && id in targets && targets[id] == s && !Marked(marks, id)
  }

  /** Cancel requests name dispatched calls only. */
  ghost predicate ControlsOk(controls: seq<CallId>, marks: seq<Mark>) {
    forall id :: id in controls ==> Marked(marks, id)
  }

  ghost predicate QueuesOk(streams: Streams, targets: Targets, enqueued: set<CallId>, marks: seq<Mark>) {
    && enqueued <= targets.Keys
    && (forall id :: id in targets ==> targets[id] in streams)
    && forall s :: s in streams ==>
      && CommandsOk(s, streams[s].commands, targets, enqueued, marks)
      && ControlsOk(streams[s].controls, marks)
  }

  /** Each command is dispatched at most once, on the stream its call captured. */
  ghost predicate MarkedOnce(marks: seq<Mark>, targets: Targets, enqueued: set<CallId>) {
    && (forall k :: 0 <= k < |marks| ==>
          marks[k].call in enqueued && marks[k].call in targets && targets[marks[k].call] == marks[k].stream)
    && (forall j, k :: 0 <= j < k < |marks| ==> marks[j].call != marks[k].call)
  }

  /** A pending call is asked to cancel at most once: its request is in at most
      one queue, of its own browser, once, and then the call is marked, so that no
      other follows. */
  ghost predicate CancelsOnce(calls: Calls, streams: Streams) {
    && (forall s :: s in streams ==> NoDuplicates(streams[s].controls))
    && (forall r, s, id :: r in streams && s in streams && id in streams[r].controls && id in streams[s].controls ==>
          r == s)
    && (forall s, id :: s in streams && id in streams[s].controls && id in calls ==>
          calls[id].cancelSent && calls[id].browser == streams[s].browser)
  }

  ghost predicate BridgeInv(b: Bridge) {
    && |b.pending| <= MAX_PENDING
    && WellFormed(b.pending)
    && OnOwnStream(b.pending, b.targets, b.streams)
    && DispatchedIffMarked(b.pending, b.marks)
    && SentAtMostOnce(b.pending, b.sends, b.targets)
    && GenerationsAgree(b.instances, b.streams)
    && CurrentGeneration(b.pending, b.instances)
    && QueuesOk(b.streams, b.targets, b.enqueued, b.marks)
    && MarkedOnce(b.marks, b.targets, b.enqueued)
    && CancelsOnce(b.pending, b.streams)
  }

  lemma InitialBridgeInv()
    ensures BridgeInv(InitialBridge)
  {}

  // Sections that only change or drop pending calls -----------------------------

  lemma FewerKeys<K, V>(m: map<K, V>, n: map<K, V>)
    requires m.Keys <= n.Keys
    ensures |m| <= |n|
  {
    FewerElements(m.Keys, n.Keys);
    assert |m| == |m.Keys| && |n| == |n.Keys|;
  }

  /** `q` is `p` later on: same generation, same dispatch mark, never less abandoned. */
  ghost predicate Later(p: PendingCall, q: PendingCall) {
    && q.browser == p.browser && q.boot == p.boot && q.dispatched == p.dispatched
    && (p.abandoned ==> q.abandoned)
    && (p.cancelSent ==> q.cancelSent)
    && CallWellFormed(q)
  }

  ghost predicate LaterCalls(calls: Calls, calls': Calls) {
    forall id :: id in calls' ==> id in calls && Later(calls[id], calls'[id])
  }

  lemma LaterCallsKeepInv(b: Bridge, calls: Calls)
    requires BridgeInv(b) && LaterCalls(b.pending, calls)
    ensures BridgeInv(b.(pending := calls))
  {
    assert forall id :: id in calls ==> id in b.pending;
    FewerKeys(calls, b.pending);
  }

  lemma HandlerCallsLater(calls: Calls, id: CallId, i: Identity)
    requires WellFormed(calls)
    ensures LaterCalls(calls, UngatedCalls(calls, id))
    ensures LaterCalls(calls, AuthorizeStartCalls(calls, i))
    ensures LaterCalls(calls, AuthorizeFailedCalls(calls, id))
  {}

  lemma StoreCallsLater(calls: Calls, id: CallId, t: ThreadId, contextDone: bool)
    requires WellFormed(calls) && (id in calls ==> calls[id].dispatched)
    ensures LaterCalls(calls, AuthorizeStoreCalls(calls, id, t, contextDone).0)
  {}

  /** A cancelled call later on; what is left of it may be abandoned as well. */
  lemma CancelledCallsLater(calls: Calls, id: CallId, sent: bool)
    requires WellFormed(calls) && id in calls && (calls[id].cancelSent ==> sent)
    ensures LaterCalls(calls, CancelledCalls(calls, id, sent))
    ensures LaterCalls(calls, CancelledCalls(calls[id := Abandoned(calls[id])], id, sent))
  {}

  /** Growing the control queue of a stream with a dispatched call. */
  lemma CancelRequestKeepsInv(b: Bridge, s: StreamId, id: CallId)
    requires BridgeInv(b) && s in b.streams && Marked(b.marks, id)
    requires id in b.pending && b.pending[id].cancelSent && b.pending[id].browser == b.streams[s].browser
    requires forall r :: r in b.streams ==> id !in b.streams[r].controls
    ensures BridgeInv(b.(streams := PutControl(b.streams, s, id)))
  {
    hide CancelsOnce;
    AskedOnce(b.pending, b.streams, s, id);
  }

  lemma AskedOnce(calls: Calls, streams: Streams, s: StreamId, id: CallId)
    requires CancelsOnce(calls, streams) && s in streams && id in calls && calls[id].cancelSent
    requires calls[id].browser == streams[s].browser
    requires forall r :: r in streams ==> id !in streams[r].controls
    ensures CancelsOnce(calls, PutControl(streams, s, id))
  {
    var streams' := PutControl(streams, s, id);
    forall r | r in streams'
      ensures NoDuplicates(streams'[r].controls)
      ensures forall c :: c in streams'[r].controls <==> c in streams[r].controls || (r == s && c == id)
    {
      assert NoDuplicates(streams[r].controls);
    }
  }

  lemma CancelTargetIs(b: Bridge, id: CallId)
    requires BridgeInv(b) && id in b.pending
    ensures WellFormed(b.pending)
    ensures
      var target := CancelTarget(b, b.pending[id]);
      target.Some? ==>
        && target.value in b.streams && b.streams[target.value].browser == b.pending[id].browser
        && Marked(b.marks, id) && forall r :: r in b.streams ==> id !in b.streams[r].controls
  {
    hide OnOwnStream, SentAtMostOnce, CurrentGeneration, QueuesOk, MarkedOnce;
  }

  /** Cancelling a call that the table, but for its abandonment, agrees on. */
  lemma CancelKeepsInvBut(b: Bridge, calls: Calls, id: CallId)
    requires BridgeInv(b) && id in b.pending
    requires calls == b.pending || calls == b.pending[id := Abandoned(b.pending[id])]
    ensures BridgeInv(CancelSection(b.(pending := calls), id))
  {
    hide BridgeInv, LaterCalls, WellFormed, Marked;
    CancelTargetIs(b, id);
    CancelledCallsLater(b.pending, id, true);
    CancelledCallsLater(b.pending, id, calls[id].cancelSent);
    LaterCallsKeepInv(b, CancelledCalls(calls, id, calls[id].cancelSent));
    var target := CancelTarget(b.(pending := calls), calls[id]);
    if target.Some? {
      LaterCallsKeepInv(b, CancelledCalls(calls, id, true));
      CancelRequestKeepsInv(b.(pending := CancelledCalls(calls, id, true)), target.value, id);
    }
  }

  lemma SendKeepsInv(b: Bridge, id: CallId)
    requires BridgeInv(b) && id in b.pending && !b.pending[id].abandoned
    ensures BridgeInv(b.(pending := b.pending - {id}, sends := CountSend(b.sends, id)))
  {
    FewerKeys(b.pending - {id}, b.pending);
  }

  lemma ReceiveKeepsInv(b: Bridge, i: Identity)
    requires BridgeInv(b)
    ensures BridgeInv(ReceiveSection(b, i))
  {
    if ReceiveVerdict(b, i).Accepted? {
      if b.pending[i.call].abandoned {
        LaterCallsKeepInv(b, b.pending - {i.call});
      } else {
        SendKeepsInv(b, i.call);
      }
    }
  }

  lemma OfflineKeepsInv(b: Bridge, br: BrowserId)
    requires BridgeInv(b) && br in b.instances
    ensures BridgeInv(b.(instances := b.instances[br := b.instances[br].(online := false)]))
  {}

  lemma StreamCallsLater(calls: Calls, stream: Stream)
    requires WellFormed(calls)
    ensures LaterCalls(calls, CallsAfterDisconnect(calls, stream))
    ensures LaterCalls(calls, ContextsDone(calls))
  {}

  lemma DisconnectKeepsInv(b: Bridge, s: StreamId)
    requires BridgeInv(b) && s in b.streams
    ensures BridgeInv(DisconnectSection(b, s))
  {
    if Current(b, s) {
      var br := b.streams[s].browser;
      StreamCallsLater(b.pending, b.streams[s]);
      OfflineKeepsInv(b, br);
      LaterCallsKeepInv(b.(instances := b.instances[br := b.instances[br].(online := false)]),
                        CallsAfterDisconnect(b.pending, b.streams[s]));
    }
  }

  // Sections that move commands ---------------------------------------------------

  /** A call that is new to the history was never queued or dispatched. */
  lemma NewTargetKeepsQueues(b: Bridge, id: CallId, s: StreamId)
    requires QueuesOk(b.streams, b.targets, b.enqueued, b.marks) && MarkedOnce(b.marks, b.targets, b.enqueued)
    requires id !in b.targets && s in b.streams
    ensures QueuesOk(b.streams, b.targets[id := s], b.enqueued, b.marks)
    ensures MarkedOnce(b.marks, b.targets[id := s], b.enqueued)
    ensures !Marked(b.marks, id) && forall r :: r in b.streams ==> id !in b.streams[r].controls
  {}

  lemma NewCallAsksNothing(calls: Calls, streams: Streams, id: CallId, p: PendingCall)
    requires CancelsOnce(calls, streams) && forall r :: r in streams ==> id !in streams[r].controls
    ensures CancelsOnce(calls[id := p], streams)
  {}

  lemma NewCallKeepsCalls(b: Bridge, id: CallId, browser: BrowserId, p: PendingCall)
    requires BridgeInv(b) && id !in b.targets && !Marked(b.marks, id) && browser in b.instances
    requires p.browser == browser && p.boot == b.instances[browser].boot && !p.dispatched && CallWellFormed(p)
    ensures WellFormed(b.pending[id := p]) && CurrentGeneration(b.pending[id := p], b.instances)
    ensures OnOwnStream(b.pending[id := p], b.targets[id := b.instances[browser].stream], b.streams)
    ensures DispatchedIffMarked(b.pending[id := p], b.marks)
    ensures SentAtMostOnce(b.pending[id := p], b.sends[id := 0], b.targets[id := b.instances[browser].stream])
  {
    hide QueuesOk, MarkedOnce, CancelsOnce, Marked;
  }

  lemma RegisterKeepsInv(b: Bridge, id: CallId, browser: BrowserId, control: ControlId, recent: bool)
    requires BridgeInv(b) && id !in b.targets && RegisterSection(b, id, browser, control, recent).Some?
    ensures BridgeInv(RegisterSection(b, id, browser, control, recent).value)
  {
    hide QueuesOk, MarkedOnce, CancelsOnce, WellFormed, OnOwnStream, DispatchedIffMarked, SentAtMostOnce,
         CurrentGeneration;
    var i := b.instances[browser];
    NewTargetKeepsQueues(b, id, i.stream);
    NewCallKeepsCalls(b, id, browser, NewCall(i, browser, control, b.stopped));
    NewCallAsksNothing(b.pending, b.streams, id, NewCall(b.instances[browser], browser, control, b.stopped));
  }

  lemma EnqueueKeepsQueues(b: Bridge, id: CallId)
    requires QueuesOk(b.streams, b.targets, b.enqueued, b.marks) && !Marked(b.marks, id)
    requires id in b.targets && id !in b.enqueued
    ensures QueuesOk(PutCommand(b.streams, b.targets[id], id), b.targets, b.enqueued + {id}, b.marks)
  {}

  lemma EnqueueKeepsInv(b: Bridge, id: CallId)
    requires BridgeInv(b) && EnqueueSection(b, id).Some?
    ensures BridgeInv(EnqueueSection(b, id).value)
  {
    assert !Marked(b.marks, id);
    EnqueueKeepsQueues(b, id);
  }

  lemma MarkedExtends(marks: seq<Mark>, m: Mark)
    ensures forall id :: Marked(marks + [m], id) <==> Marked(marks, id) || m.call == id
  {
    forall id
      ensures Marked(marks + [m], id) <==> Marked(marks, id) || m.call == id
    {
      if Marked(marks, id) {
        var k :| 0 <= k < |marks| && marks[k].call == id;
        assert (marks + [m])[k].call == id;
      }
      if m.call == id {
        assert (marks + [m])[|marks|].call == id;
      }
    }
  }

  lemma TailOfCommandsOk(s: StreamId, c: seq<CallId>, targets: Targets, enqueued: set<CallId>, marks: seq<Mark>)
    requires c != [] && CommandsOk(s, c, targets, enqueued, marks)
    ensures CommandsOk(s, c[1..], targets, enqueued, marks) && c[0] !in c[1..]
  {
    forall i, j | 0 <= i < j < |c[1..]|
      ensures c[1..][i] != c[1..][j]
    {
      assert c[i + 1] != c[j + 1];
    }
  }

  lemma CommandInOneQueue(b: Bridge, r: StreamId, s: StreamId, id: CallId)
    requires QueuesOk(b.streams, b.targets, b.enqueued, b.marks) && r in b.streams && s in b.streams
    requires id in b.streams[r].commands && id in b.streams[s].commands
    ensures r == s
  {
    assert CommandsOk(r, b.streams[r].commands, b.targets, b.enqueued, b.marks);
    assert CommandsOk(s, b.streams[s].commands, b.targets, b.enqueued, b.marks);
  }

  /** Once taken, a command is in no queue. */
  lemma DropCommandKeepsInv(b: Bridge, s: StreamId)
    requires BridgeInv(b) && s in b.streams && b.streams[s].commands != []
    ensures BridgeInv(b.(streams := DropCommand(b.streams, s)))
    ensures
      var id := b.streams[s].commands[0];
      && id in b.enqueued && id in b.targets && b.targets[id] == s && !Marked(b.marks, id)
      && forall r :: r in b.streams ==> id !in DropCommand(b.streams, s)[r].commands
  {
    var c := b.streams[s].commands;
    var id := c[0];
    TailOfCommandsOk(s, c, b.targets, b.enqueued, b.marks);
    assert id in c;
    forall r | r in b.streams && r != s
      ensures id !in b.streams[r].commands
    {
      if id in b.streams[r].commands {
        CommandInOneQueue(b, r, s, id);
      }
    }
  }

  lemma MarkKeepsQueues(streams: Streams, targets: Targets, enqueued: set<CallId>, marks: seq<Mark>, m: Mark)
    requires QueuesOk(streams, targets, enqueued, marks)
    requires forall r :: r in streams ==> m.call !in streams[r].commands
    ensures QueuesOk(streams, targets, enqueued, marks + [m])
  {
    MarkedExtends(marks, m);
  }

  lemma MarkKeepsInv(b: Bridge, id: CallId, s: StreamId)
    requires BridgeInv(b) && id in b.pending && !Marked(b.marks, id)
    requires id in b.enqueued && id in b.targets && b.targets[id] == s
    requires forall r :: r in b.streams ==> id !in b.streams[r].commands
    ensures BridgeInv(b.(pending := b.pending[id := b.pending[id].(dispatched := true)],
                         marks := b.marks + [Mark(id, s)]))
  {
    MarkedExtends(b.marks, Mark(id, s));
    MarkKeepsQueues(b.streams, b.targets, b.enqueued, b.marks, Mark(id, s));
    FewerKeys(b.pending[id := b.pending[id].(dispatched := true)], b.pending);
  }

  lemma DispatchKeepsInv(b: Bridge, s: StreamId, late: bool)
    requires BridgeInv(b) && DispatchSection(b, s, late).Some?
    ensures BridgeInv(DispatchSection(b, s, late).value)
  {
    var id := b.streams[s].commands[0];
    var b' := b.(streams := DropCommand(b.streams, s));
    DropCommandKeepsInv(b, s);
    if id in b.pending {
      LaterCallsKeepInv(b', b.pending - {id});
      MarkKeepsInv(b', id, s);
    }
  }

  lemma DispatchCancelKeepsInv(b: Bridge, s: StreamId)
    requires BridgeInv(b) && DispatchCancelSection(b, s).Some?
    ensures BridgeInv(DispatchCancelSection(b, s).value)
    ensures DispatchCancelSection(b, s).value.pending == b.pending
  {
    assert b.streams[s].controls[0] in b.streams[s].controls;
  }

  lemma ConnectKeepsCalls(b: Bridge, browser: BrowserId, boot: BootId, oldBoot: BootId)
    requires BridgeInv(b) && browser in b.instances && b.instances[browser].boot == oldBoot
    ensures
      var calls := CallsAfterConnect(b.pending, browser, oldBoot, boot);
      && BridgeInv(b.(pending := calls, sends := SendsAfterConnect(b.sends, b.pending, browser)))
      && forall id :: id in calls && calls[id].browser == browser ==> calls[id].boot == boot
  {
    FewerKeys(CallsAfterConnect(b.pending, browser, oldBoot, boot), b.pending);
  }

  lemma NewStreamKeepsInv(b: Bridge, browser: BrowserId, boot: BootId, s: StreamId)
    requires BridgeInv(b) && s !in b.streams
    requires forall id :: id in b.pending && b.pending[id].browser == browser ==> b.pending[id].boot == boot
    ensures BridgeInv(b.(instances := b.instances[browser := Instance(boot, s, true)],
                         streams := b.streams[s := Stream(browser, boot, [], [])]))
  {}

  lemma ConnectKeepsInv(b: Bridge, browser: BrowserId, boot: BootId, s: StreamId)
    requires BridgeInv(b) && s !in b.streams && ConnectSection(b, browser, boot, s).Some?
    ensures BridgeInv(ConnectSection(b, browser, boot, s).value)
  {
    if browser in b.instances {
      var oldBoot := b.instances[browser].boot;
      ConnectKeepsCalls(b, browser, boot, oldBoot);
      NewStreamKeepsInv(b.(pending := CallsAfterConnect(b.pending, browser, oldBoot, boot),
                           sends := SendsAfterConnect(b.sends, b.pending, browser)),
                        browser, boot, s);
    } else {
      NewStreamKeepsInv(b, browser, boot, s);
    }
  }

  lemma BridgeStepKeepsInv(b: Bridge, e: BridgeEvent)
    requires BridgeInv(b) && BridgeNext(b, e).Some?
    ensures BridgeInv(BridgeNext(b, e).value)
  {
    match e
    case SetGate =>
    case Register(id, browser, control, recent) => RegisterKeepsInv(b, id, browser, control, recent);
    case Enqueue(id) => EnqueueKeepsInv(b, id);
    case Leave(id) =>
      if id in b.pending {
        CancelKeepsInvBut(b, b.pending[id := Abandoned(b.pending[id])], id);
      }
    case GateWatch(id) => CancelKeepsInvBut(b, b.pending, id);
    case Dispatch(s, late) => DispatchKeepsInv(b, s, late);
    case DispatchCancel(s) => DispatchCancelKeepsInv(b, s);
    case Disconnect(s) => DisconnectKeepsInv(b, s);
    case StopContext =>
      StreamCallsLater(b.pending, Stream(0, 0, [], []));
      LaterCallsKeepInv(b.(stopped := true), ContextsDone(b.pending));
  }
}
