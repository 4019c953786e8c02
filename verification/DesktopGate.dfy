/** The threads that share the one-token gate of the desktop coordinator. Every
    mutex-protected section, channel operation and backend call of
    internal/computer/coordinator.go is one atomic step here, so a run is any
    interleaving of any number of threads. */
module DesktopGate {
  import opened Basics
  import opened Coordination

  type CallId = int

  /** Who asked `begin` for the desktop: a native State/Act, or the authorize
      handler of a browser call. */
  datatype Use = Native | Browser(call: CallId)

  /** What follows once a thread has put the token back. */
  datatype After = Finish | FailAuthorization(call: CallId)

  datatype Phase =
      // Control("acquire")
    | Acquiring
    | Showing(id: ControlId)
    | Resetting(id: ControlId)
      // finishStop; `epoch` counts the owners admitted when it saw the status
    | StopReset(epoch: nat)
    | StopWaiting(epoch: nat)
    | StopHolding(epoch: nat)
    | StopReturning
      // begin ... end
    | BeginChecking(id: ControlId, use: Use)
    | BeginWaiting(id: ControlId, use: Use)
    | BeginHolding(id: ControlId, use: Use)
    | Invalidating(id: ControlId, call: CallId)
    | Operating(id: ControlId, use: Use)
    | Parked(id: ControlId, call: CallId)  // release is stored in the pending call
    | Ending(id: ControlId, after: After)  // release has been called
    | Returning(reserved: bool, after: After)
      // the rest of the authorize handler
    | AuthorizationFailed(call: CallId)
    | Ungated(call: CallId)
    | Done

  predicate Holding(p: Phase) {
    p.Acquiring? || p.Showing? || p.Resetting? || p.StopHolding? || p.StopReturning?
    || p.BeginHolding? || p.Returning? || InFlight(p)
  }

  /** A reservation has been granted and its `end` has not run yet. */
  predicate InFlight(p: Phase) {
    p.Invalidating? || p.Operating? || p.Parked? || p.Ending?
  }

  predicate Stopper(p: Phase) {
    p.StopReset? || p.StopWaiting? || p.StopHolding? || p.StopReturning?
  }

  /** Where the token is; a history variable that no step reads. */
  datatype Place = InGate | With(t: ThreadId)

  datatype Observation = Observation(control: ControlId, clears: nat)

  /** An action that was passed to the backend, with the observation that it used. */
  datatype Acted = Acted(state: Option<StateId>, control: ControlId, clears: nat)

  /** History variables. */
  datatype Log = Log(
    admitted: seq<ControlId>,
    observed: map<StateId, Observation>,
    acted: seq<Acted>,
    reserved: set<ThreadId>,
    released: multiset<ThreadId>)

  datatype Desk = Desk(
    core: Core,
    gate: nat,
    token: Place,
    stopMutex: Option<ThreadId>,
    threads: map<ThreadId, Phase>,
    log: Log)
  {
    predicate At(t: ThreadId, p: Phase) { t in threads && threads[t] == p }

    function To(t: ThreadId, p: Phase): Desk { this.(threads := threads[t := p]) }

    function Gone(t: ThreadId): Desk { To(t, Done) }

    function Take(t: ThreadId): Desk
      requires gate > 0
    {
      this.(gate := gate - 1, token := With(t))
    }

    function Put(): Desk { this.(gate := gate + 1, token := InGate) }

    /** `begin` returned an error to whoever called it. */
    function Refused(t: ThreadId, use: Use): Desk {
      match use
      case Native => Gone(t)
      case Browser(call) => To(t, AuthorizationFailed(call))
    }
  }

  const InitialDesk := Desk(InitialCore, 1, InGate, None, map[], Log([], map[], [], {}, multiset{}))

  function AfterRefusal(use: Use): After {
    match use
    case Native => Finish
    case Browser(call) => FailAuthorization(call)
  }

  datatype DeskEvent =
    | Expire(now: int)
    | TakeForAcquire(t: ThreadId)
    | Admit(t: ThreadId, newId: Option<ControlId>, now: int)
    | Shown(t: ThreadId, ok: bool)
    | ShowFailed(t: ThreadId, cleaned: bool)
    | PutBack(t: ThreadId)
    | Release(id: ControlId)
    | LocalStop
    | StopStart(t: ThreadId)
    | StopResetDone(t: ThreadId, ok: bool)
    | StopTake(t: ThreadId)
    | StopGiveUp(t: ThreadId)
    | StopFinish(t: ThreadId)
    | BeginNative(t: ThreadId, id: ControlId)
    | BeginCheck(t: ThreadId)
    | BeginGiveUp(t: ThreadId)
    | BeginTake(t: ThreadId)
    | BeginAbort(t: ThreadId)
    | BeginEnter(t: ThreadId, now: int)
    | Invalidated(t: ThreadId, ok: bool)
    | Observe(t: ThreadId, s: StateId)
    | Act(t: ThreadId, consumed: Option<StateId>)
    | EndNative(t: ThreadId)
    | End(t: ThreadId, now: int)
    | Close

  // Control("acquire") ------------------------------------------------------

  function TakeForAcquireStep(d: Desk, t: ThreadId): Option<Desk> {
    if t in d.threads || d.gate == 0 then None
    else Some(d.Take(t).To(t, Acquiring))
  }

  function AdmitStep(d: Desk, t: ThreadId, newId: Option<ControlId>, now: int): Option<Desk> {
    if !d.At(t, Acquiring) then None
    else if newId.Some? && (newId.value == NO_CONTROL || newId.value in d.log.admitted) then None
    else
      var (c, ok) := AdmitSection(d.core, newId, now);
      if !ok then Some(d.(core := c).To(t, Returning(false, Finish)))
      else Some(d.(core := c, log := d.log.(admitted := d.log.admitted + [newId.value]))
                 .To(t, Showing(newId.value)))
  }

  function ShownStep(d: Desk, t: ThreadId, ok: bool): Option<Desk> {
    if t !in d.threads || !d.threads[t].Showing? then None
    else Some(d.To(t, if ok then Returning(false, Finish) else Resetting(d.threads[t].id)))
  }

  function ShowFailedStep(d: Desk, t: ThreadId, cleaned: bool): Option<Desk> {
    if t !in d.threads || !d.threads[t].Resetting? then None
    else Some(d.(core := AdmitFailedSection(d.core, cleaned)).To(t, Returning(false, Finish)))
  }

  /** The effect of a put-back on the log. */
  function ReleaseLogged(log: Log, t: ThreadId, reserved: bool): Log {
    if reserved then log.(released := log.released + multiset{t}) else log
  }

  /** The send on the gate channel, whoever still owes it. */
  function PutBackStep(d: Desk, t: ThreadId): Option<Desk> {
    if t !in d.threads then None
    else match d.threads[t]
      case StopReturning => Some(d.Put().Gone(t).(stopMutex := None))
      case Returning(reserved, after) =>
        var d' := d.Put().(log := ReleaseLogged(d.log, t, reserved));
        Some(if after.Finish? then d'.Gone(t) else d'.To(t, AuthorizationFailed(after.call)))
      case _ => None
  }

  // finishStop --------------------------------------------------------------

  /** `finishStop` may start at any time: the watcher calls it every second. */
  function StopStartStep(d: Desk, t: ThreadId): Option<Desk> {
    if t in d.threads || d.stopMutex.Some? || d.core.status != Stopping || d.core.closed then None
    else Some(d.To(t, StopReset(|d.log.admitted|)).(stopMutex := Some(t)))
  }

  function StopResetDoneStep(d: Desk, t: ThreadId, ok: bool): Option<Desk> {
    if t !in d.threads || !d.threads[t].StopReset? then None
    else Some(if ok then d.To(t, StopWaiting(d.threads[t].epoch)) else d.Gone(t).(stopMutex := None))
  }

  function StopTakeStep(d: Desk, t: ThreadId): Option<Desk> {
    if t !in d.threads || !d.threads[t].StopWaiting? || d.gate == 0 then None
    else Some(d.Take(t).To(t, StopHolding(d.threads[t].epoch)))
  }

  /** `acquireGate` failed, before or after it received the token. */
  function StopGiveUpStep(d: Desk, t: ThreadId): Option<Desk> {
    if t !in d.threads then None
    else match d.threads[t]
      case StopWaiting(_) => Some(d.Gone(t).(stopMutex := None))
      case StopHolding(_) => Some(d.To(t, StopReturning))
      case _ => None
  }

  function StopFinishStep(d: Desk, t: ThreadId): Option<Desk> {
    if t !in d.threads || !d.threads[t].StopHolding? then None
    else Some(d.(core := FinishStopSection(d.core)).To(t, StopReturning))
  }

  // begin and end -------------------------------------------------------------

  function BeginCheckStep(d: Desk, t: ThreadId): Option<Desk> {
    if t !in d.threads || !d.threads[t].BeginChecking? then None
    else
      var BeginChecking(id, use) := d.threads[t];
      Some(if d.core.Admits(id, use.Browser?) then d.To(t, BeginWaiting(id, use)) else d.Refused(t, use))
  }

  function BeginGiveUpStep(d: Desk, t: ThreadId): Option<Desk> {
    if t !in d.threads || !d.threads[t].BeginWaiting? then None
    else Some(d.Refused(t, d.threads[t].use))
  }

  function BeginTakeStep(d: Desk, t: ThreadId): Option<Desk> {
    if t !in d.threads || !d.threads[t].BeginWaiting? || d.gate == 0 then None
    else Some(d.Take(t).To(t, BeginHolding(d.threads[t].id, d.threads[t].use)))
  }

  /** The caller's context was cancelled while the token was being received. */
  function BeginAbortStep(d: Desk, t: ThreadId): Option<Desk> {
    if t !in d.threads || !d.threads[t].BeginHolding? then None
    else Some(d.To(t, Returning(false, AfterRefusal(d.threads[t].use))))
  }

  function BeginEnterStep(d: Desk, t: ThreadId, now: int): Option<Desk> {
    if t !in d.threads || !d.threads[t].BeginHolding? then None
    else
      var BeginHolding(id, use) := d.threads[t];
      var (c, ok) := BeginSection(d.core, t, id, use.Browser?, now);
      if !ok then Some(d.To(t, Returning(false, AfterRefusal(use))))
      else Some(d.(core := c, log := d.log.(reserved := d.log.reserved + {t}))
                 .To(t, if use.Browser? then Invalidating(id, use.call) else Operating(id, use)))
  }

  function InvalidatedStep(d: Desk, t: ThreadId, ok: bool): Option<Desk> {
    if t !in d.threads || !d.threads[t].Invalidating? then None
    else
      var Invalidating(id, call) := d.threads[t];
      Some(if ok then d.(core := d.core.Cleared()).To(t, Operating(id, Browser(call)))
           else d.To(t, Ending(id, FailAuthorization(call))))
  }

  /** State identifiers come from the native backend, a new one each time. */
  function ObserveStep(d: Desk, t: ThreadId, s: StateId): Option<Desk> {
    if t !in d.threads || !d.threads[t].Operating? || !d.threads[t].use.Native? || s in d.log.observed then None
    else
      var id := d.threads[t].id;
      var (c, ok) := ObserveSection(d.core, id, s);
      Some(if !ok then d
           else d.(core := c, log := d.log.(observed := d.log.observed[s := Observation(id, c.clears)])))
  }

  function ActStep(d: Desk, t: ThreadId, s: Option<StateId>): Option<Desk> {
    if t !in d.threads || !d.threads[t].Operating? || !d.threads[t].use.Native? then None
    else
      var id := d.threads[t].id;
      var (c, valid) := ConsumeSection(d.core, id, s);
      Some(if !valid then d
           else d.(core := c, log := d.log.(acted := d.log.acted + [Acted(s, id, d.core.clears)])))
  }

  function EndNativeStep(d: Desk, t: ThreadId): Option<Desk> {
    if t !in d.threads || !d.threads[t].Operating? || !d.threads[t].use.Native? then None
    else Some(d.To(t, Ending(d.threads[t].id, Finish)))
  }

  function EndStep(d: Desk, t: ThreadId, now: int): Option<Desk> {
    if t !in d.threads || !d.threads[t].Ending? then None
    else Some(d.(core := EndSection(d.core, t, d.threads[t].id, now))
               .To(t, Returning(true, d.threads[t].after)))
  }

  /** One step of the coordinator; None when the event cannot happen now. */
  function DeskNext(d: Desk, e: DeskEvent): Option<Desk> {
    match e
    case Expire(now) => Some(d.(core := ExpireSection(d.core, now).0))
    case TakeForAcquire(t) => TakeForAcquireStep(d, t)
    case Admit(t, newId, now) => AdmitStep(d, t, newId, now)
    case Shown(t, ok) => ShownStep(d, t, ok)
    case ShowFailed(t, cleaned) => ShowFailedStep(d, t, cleaned)
    case PutBack(t) => PutBackStep(d, t)
    case Release(id) => Some(d.(core := ReleaseSection(d.core, id).0))
    case LocalStop => Some(d.(core := LocalStopSection(d.core).0))
    case StopStart(t) => StopStartStep(d, t)
    case StopResetDone(t, ok) => StopResetDoneStep(d, t, ok)
    case StopTake(t) => StopTakeStep(d, t)
    case StopGiveUp(t) => StopGiveUpStep(d, t)
    case StopFinish(t) => StopFinishStep(d, t)
    case BeginNative(t, id) =>
      if t in d.threads then None else Some(d.To(t, BeginChecking(id, Native)))
    case BeginCheck(t) => BeginCheckStep(d, t)
    case BeginGiveUp(t) => BeginGiveUpStep(d, t)
    case BeginTake(t) => BeginTakeStep(d, t)
    case BeginAbort(t) => BeginAbortStep(d, t)
    case BeginEnter(t, now) => BeginEnterStep(d, t, now)
    case Invalidated(t, ok) => InvalidatedStep(d, t, ok)
    case Observe(t, s) => ObserveStep(d, t, s)
    case Act(t, s) => ActStep(d, t, s)
    case EndNative(t) => EndNativeStep(d, t)
    case End(t, now) => EndStep(d, t, now)
    case Close => Some(d.(core := CloseSection(d.core)))
  }

  // What the authorize handler and the bridge do to reservations --------------

  function AuthorizeSpawn(d: Desk, t: ThreadId, id: ControlId, call: CallId, gated: bool): Desk {
    d.To(t, if gated then BeginChecking(id, Browser(call)) else Ungated(call))
  }

  /** The release function moves into the pending call. */
  function Park(d: Desk, t: ThreadId): Desk
    requires t in d.threads && d.threads[t].Operating? && d.threads[t].use.Browser?
  {
    d.To(t, Parked(d.threads[t].id, d.threads[t].use.call))
  }

  /** The handler calls release itself because the call is gone or cancelled. */
  function Undo(d: Desk, t: ThreadId): Desk
    requires t in d.threads && d.threads[t].Operating? && d.threads[t].use.Browser?
  {
    d.To(t, Ending(d.threads[t].id, Finish))
  }

  /** The bridge calls the release functions of the calls it drops. */
  function ReleaseParked(d: Desk, ts: set<ThreadId>): Desk {
    d.(threads := map t | t in d.threads ::
         if t in ts && d.threads[t].Parked? then Ending(d.threads[t].id, Finish) else d.threads[t])
  }
}
