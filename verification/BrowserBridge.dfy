/** The browser bridge (internal/browser/browser.go and connection.go): the
    table of pending calls, the connected extension instances and their command
    queues. Each section that runs under the bridge's mutex is a function on the
    bridge's state; the class at the end of BridgeObject.dfy runs the same
    sections in place. */
module BrowserBridge {
  import opened Basics
  import opened Coordination
  import opened DesktopGate

  type BrowserId = int
  type BootId = int
  type StreamId = int

  const MAX_PENDING := 256
  const MAX_INSTANCES := 32
  const MAX_COMMANDS := 64
  const MAX_CONTROLS := 256

  /** `contextDone`: the operation context has been cancelled. */
  datatype PendingCall = PendingCall(
    browser: BrowserId,
    boot: BootId,
    control: ControlId,
    contextDone: bool,
    release: Option<ThreadId>,
    authorizing: bool,
    watching: bool,
    cancelSent: bool,
    dispatched: bool,
    abandoned: bool)

  /** The entry of `instances`; `online` is `socket != nil`. */
  datatype Instance = Instance(boot: BootId, stream: StreamId, online: bool)

  /** The queues of one authenticated stream. */
  datatype Stream = Stream(browser: BrowserId, boot: BootId, commands: seq<CallId>, controls: seq<CallId>)

  /** History: `marks` lists the dispatches in order, `sends` counts the sends on
      each result channel. `targets` is the stream each call captured, and
      `enqueued` the calls whose command has been sent to it. */
  datatype Mark = Mark(call: CallId, stream: StreamId)

  type Calls = map<CallId, PendingCall>
  type Streams = map<StreamId, Stream>
  type Sends = map<CallId, nat>

  datatype Bridge = Bridge(
    pending: Calls,
    instances: map<BrowserId, Instance>,
    streams: Streams,
    gateSet: bool,
    stopped: bool,
    targets: map<CallId, StreamId>,
    enqueued: set<CallId>,
    sends: Sends,
    marks: seq<Mark>)

  const InitialBridge := Bridge(map[], map[], map[], false, false, map[], {}, map[], [])

  /** The identity a result or an authorization request carries. */
  datatype Identity = Identity(call: CallId, browser: BrowserId, boot: BootId)

  predicate Belongs(p: PendingCall, i: Identity) {
    p.browser == i.browser && p.boot == i.boot
  }

  function Abandoned(p: PendingCall): PendingCall { p.(abandoned := true) }

  /** Abandoned and cancelled, because the stream of its call is gone. */
  function Orphaned(p: PendingCall): PendingCall { p.(abandoned := true, contextDone := true) }

  function CountSend(sends: Sends, id: CallId): Sends {
    sends[id := if id in sends then sends[id] + 1 else 1]
  }

  function PutCommand(streams: Streams, s: StreamId, id: CallId): Streams
    requires s in streams
  {
    streams[s := streams[s].(commands := streams[s].commands + [id])]
  }

  function DropCommand(streams: Streams, s: StreamId): Streams
    requires s in streams && streams[s].commands != []
  {
    streams[s := streams[s].(commands := streams[s].commands[1..])]
  }

  function PutControl(streams: Streams, s: StreamId, id: CallId): Streams
    requires s in streams
  {
    streams[s := streams[s].(controls := streams[s].controls + [id])]
  }

  function DropControl(streams: Streams, s: StreamId): Streams
    requires s in streams && streams[s].controls != []
  {
    streams[s := streams[s].(controls := streams[s].controls[1..])]
  }

  // call ----------------------------------------------------------------------

  function NewCall(i: Instance, browser: BrowserId, control: ControlId, stopped: bool): PendingCall {
    PendingCall(browser, i.boot, control, stopped, None, false, false, false, false, false)
  }

  /** `call` up to its first unlock; `recent` says the instance was seen in the
      last 35 seconds. */
  function RegisterSection(b: Bridge, id: CallId, browser: BrowserId, control: ControlId, recent: bool)
    : Option<Bridge>
  {
    if browser !in b.instances || !b.instances[browser].online || !recent then None
    else if |b.pending| >= MAX_PENDING then None
    else
      var i := b.instances[browser];
      Some(b.(pending := b.pending[id := NewCall(i, browser, control, b.stopped)],
              targets := b.targets[id := i.stream],
              sends := b.sends[id := 0]))
  }

  /** The send of the command to the stream the call captured. */
  function EnqueueSection(b: Bridge, id: CallId): Option<Bridge> {
    if id !in b.targets || id in b.enqueued || b.targets[id] !in b.streams then None
    else if |b.streams[b.targets[id]].commands| >= MAX_COMMANDS then None
    else Some(b.(enqueued := b.enqueued + {id}, streams := PutCommand(b.streams, b.targets[id], id)))
  }

  /** The stream that can still take a cancel request for the call. */
  function CancelTarget(b: Bridge, p: PendingCall): Option<StreamId> {
    if !p.dispatched || p.cancelSent || p.browser !in b.instances then None
    else
      var i := b.instances[p.browser];
      if i.boot != p.boot || i.stream !in b.streams || |b.streams[i.stream].controls| >= MAX_CONTROLS
      then None
      else Some(i.stream)
  }

  function CancelledCalls(calls: Calls, id: CallId, sent: bool): Calls
    requires id in calls
  {
    if !calls[id].dispatched then calls - {id}
    else calls[id := calls[id].(contextDone := true, cancelSent := sent)]
  }

  /** `cancelPendingLocked`. */
  function CancelSection(b: Bridge, id: CallId): Bridge
    requires id in b.pending
  {
    match CancelTarget(b, b.pending[id])
    case None => b.(pending := CancelledCalls(b.pending, id, b.pending[id].cancelSent))
    case Some(s) => b.(pending := CancelledCalls(b.pending, id, true),
                       streams := if s in b.streams then PutControl(b.streams, s, id) else b.streams)
  }

  /** The deferred section of `call`: whoever leaves first abandons the call. */
  function LeaveSection(b: Bridge, id: CallId): Bridge {
    if id !in b.pending then b
    else CancelSection(b.(pending := b.pending[id := Abandoned(b.pending[id])]), id)
  }

  // results -------------------------------------------------------------------

  datatype Verdict = Conflict | Unknown | Accepted(release: Option<ThreadId>)

  function ReceiveVerdict(b: Bridge, i: Identity): Verdict {
    if i.browser !in b.instances || i.boot != b.instances[i.browser].boot
       || (i.call in b.pending && !Belongs(b.pending[i.call], i)) then Conflict
    else if i.call !in b.pending then Unknown
    else Accepted(b.pending[i.call].release)
  }

  function ReceiveSection(b: Bridge, i: Identity): Bridge {
    if !ReceiveVerdict(b, i).Accepted? then b
    else b.(pending := b.pending - {i.call},
            sends := if b.pending[i.call].abandoned then b.sends else CountSend(b.sends, i.call))
  }

  // authorize -----------------------------------------------------------------

  datatype AuthorizeVerdict = Refused | AlreadyHeld | InProgress | Ask(control: ControlId)

  function AuthorizeVerdictOf(calls: Calls, i: Identity): AuthorizeVerdict {
    if i.call !in calls then Refused
    else
      var p := calls[i.call];
      if !p.dispatched || p.abandoned || !Belongs(p, i) then Refused
      else if p.release.Some? then AlreadyHeld
      else if p.authorizing then InProgress
      else Ask(p.control)
  }

  function AuthorizeStartCalls(calls: Calls, i: Identity): Calls {
    if AuthorizeVerdictOf(calls, i).Ask?
    then calls[i.call := calls[i.call].(authorizing := true)]
    else calls
  }

  /** No gate is installed: nothing is reserved. */
  function UngatedCalls(calls: Calls, id: CallId): Calls {
    if id !in calls then calls
    else if calls[id].abandoned then calls - {id}
    else calls[id := calls[id].(authorizing := false)]
  }

  /** The gate refused. */
  function AuthorizeFailedCalls(calls: Calls, id: CallId): Calls {
    if id !in calls then calls
    else if calls[id].abandoned && calls[id].release.None? then calls - {id}
    else calls[id := calls[id].(authorizing := false)]
  }

  /** The gate granted thread `t` a reservation; true when the pending call
      keeps it. */
  function AuthorizeStoreCalls(calls: Calls, id: CallId, t: ThreadId, contextDone: bool): (Calls, bool) {
    if id !in calls then (calls, false)
    else if calls[id].abandoned then (calls - {id}, false)
    else if contextDone then (calls[id := calls[id].(authorizing := false)], false)
    else (calls[id := calls[id].(release := Some(t), authorizing := false, watching := true)], true)
  }

  // streams -------------------------------------------------------------------

  /** A call that a new or lost stream drops unless it may still be executing
      with a reservation held or being asked for. */
  predicate Droppable(p: PendingCall) {
    !p.dispatched || (p.release.None? && !p.authorizing)
  }

  predicate DroppedByConnect(p: PendingCall, browser: BrowserId, oldBoot: BootId, boot: BootId) {
    p.browser == browser && (oldBoot != boot || Droppable(p))
  }

  function CallsAfterConnect(calls: Calls, browser: BrowserId, oldBoot: BootId, boot: BootId): Calls {
    map id | id in calls && !DroppedByConnect(calls[id], browser, oldBoot, boot) ::
      if calls[id].browser == browser then Orphaned(calls[id]) else calls[id]
  }

  /** Every call of the browser not abandoned before is told about the reconnection. */
  function SendsAfterConnect(sends: Sends, calls: Calls, browser: BrowserId): Sends {
    map id | id in sends ::
      if id in calls && calls[id].browser == browser && !calls[id].abandoned
      then sends[id] + 1
      else sends[id]
  }

  /** The release functions that `connect` calls: those of a previous boot. */
  function ReleasedByConnect(b: Bridge, browser: BrowserId, boot: BootId): set<ThreadId> {
    if browser !in b.instances || b.instances[browser].boot == boot then {}
    else set id | id in b.pending && b.pending[id].browser == browser && b.pending[id].release.Some?
           :: b.pending[id].release.value
  }

  /** A new authenticated stream replaces the instance of its browser. */
  function ConnectSection(b: Bridge, browser: BrowserId, boot: BootId, s: StreamId): Option<Bridge> {
    if b.stopped || (browser !in b.instances && |b.instances| >= MAX_INSTANCES) then None
    else
      var current := b.(instances := b.instances[browser := Instance(boot, s, true)],
                        streams := b.streams[s := Stream(browser, boot, [], [])]);
      if browser !in b.instances then Some(current)
      else Some(current.(pending := CallsAfterConnect(b.pending, browser, b.instances[browser].boot, boot),
                         sends := SendsAfterConnect(b.sends, b.pending, browser)))
  }

  predicate Affected(p: PendingCall, stream: Stream) {
    p.browser == stream.browser && p.boot == stream.boot
  }

  function CallsAfterDisconnect(calls: Calls, stream: Stream): Calls {
    map id | id in calls && !(Affected(calls[id], stream) && Droppable(calls[id])) ::
      if Affected(calls[id], stream) then Orphaned(calls[id]) else calls[id]
  }

  predicate Current(b: Bridge, s: StreamId)
    requires s in b.streams
  {
    b.streams[s].browser in b.instances && b.instances[b.streams[s].browser].stream == s
  }

  /** The deferred section of `connect`. */
  function DisconnectSection(b: Bridge, s: StreamId): Bridge
    requires s in b.streams
  {
    if !Current(b, s) then b
    else
      var br := b.streams[s].browser;
      b.(instances := b.instances[br := b.instances[br].(online := false)],
         pending := CallsAfterDisconnect(b.pending, b.streams[s]))
  }

  /** The dispatch loop of the stream has not returned: the deferred section,
      which marks the instance offline, runs after the loop. */
  predicate Serving(b: Bridge, s: StreamId)
    requires s in b.streams
  {
    Current(b, s) ==> b.instances[b.streams[s].browser].online
  }

  predicate Dispatchable(b: Bridge, s: StreamId, p: PendingCall, late: bool)
    requires s in b.streams
  {
    Current(b, s) && p.boot == b.streams[s].boot && !p.abandoned && !p.contextDone && !late
  }

  /** The dispatch loop takes the next command; `late` says its deadline passed. */
  function DispatchSection(b: Bridge, s: StreamId, late: bool): Option<Bridge> {
    if s !in b.streams || b.streams[s].commands == [] || !Serving(b, s) then None
    else
      var id := b.streams[s].commands[0];
      var b' := b.(streams := DropCommand(b.streams, s));
      if id !in b.pending then Some(b')
      else if Dispatchable(b, s, b.pending[id], late)
      then Some(b'.(pending := b.pending[id := b.pending[id].(dispatched := true)], marks := b.marks + [Mark(id, s)]))
      else if !b.pending[id].dispatched then Some(b'.(pending := b.pending - {id}))
      else Some(b')
  }

  /** The dispatch loop takes the next cancel request. */
  function DispatchCancelSection(b: Bridge, s: StreamId): Option<Bridge> {
    if s !in b.streams || b.streams[s].controls == [] || !Serving(b, s) then None
    else
      var id := b.streams[s].controls[0];
      var b' := b.(streams := DropControl(b.streams, s));
      var valid := Current(b, s) && id in b.pending && b.pending[id].boot == b.streams[s].boot;
      if !valid && id in b.pending && !b.pending[id].dispatched
      then Some(b'.(pending := b.pending - {id}))
      else Some(b')
  }

  // Close -----------------------------------------------------------------------

  function ContextsDone(calls: Calls): Calls {
    map id | id in calls :: calls[id].(contextDone := true)
  }

  /** `b.cancel()`: every operation context derives from the bridge's. */
  function StopContextSection(b: Bridge): Bridge {
    b.(stopped := true, pending := ContextsDone(b.pending))
  }

  function ReleasedByClose(calls: Calls): set<ThreadId> {
    set id | id in calls && calls[id].release.Some? :: calls[id].release.value
  }

  datatype BridgeEvent =
    | SetGate
    | Register(id: CallId, browser: BrowserId, control: ControlId, recent: bool)
    | Enqueue(id: CallId)
    | Leave(id: CallId)
    | GateWatch(id: CallId)
    | Dispatch(stream: StreamId, late: bool)
    | DispatchCancel(stream: StreamId)
    | Disconnect(stream: StreamId)
    | StopContext

  /** The sections that leave the desktop reservations alone. */
  function BridgeNext(b: Bridge, e: BridgeEvent): Option<Bridge> {
    match e
    case SetGate => Some(b.(gateSet := true))
    case Register(id, browser, control, recent) =>
      if id in b.targets then None else RegisterSection(b, id, browser, control, recent)
    case Enqueue(id) => EnqueueSection(b, id)
    case Leave(id) => Some(LeaveSection(b, id))
    case GateWatch(id) =>
      if id in b.pending && b.pending[id].watching then Some(CancelSection(b, id)) else None
    case Dispatch(s, late) => DispatchSection(b, s, late)
    case DispatchCancel(s) => DispatchCancelSection(b, s)
    case Disconnect(s) => if s in b.streams then Some(DisconnectSection(b, s)) else None
    case StopContext => Some(StopContextSection(b))
  }
}
