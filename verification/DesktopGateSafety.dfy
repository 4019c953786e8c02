/** What every interleaving of the coordinator's threads keeps. */
module DesktopGateSafety {
  import opened Basics
  import opened Coordination
  import opened DesktopGate

  // The inductive invariant, one concern each ---------------------------------

  type Threads = map<ThreadId, Phase>

  /** The token is in one place, and the channel holds it exactly when no thread does. */
  ghost predicate TokenInOnePlace(gate: nat, token: Place, threads: Threads) {
    && gate == (if token.InGate? then 1 else 0)
    && (forall t :: t in threads && Holding(threads[t]) ==> token == With(t))
    && (token.With? ==> token.t in threads && Holding(threads[token.t]))
  }

  /** At most one thread is inside `finishStop`. */
  ghost predicate OneStopper(stopMutex: Option<ThreadId>, threads: Threads) {
    && (forall t :: t in threads && Stopper(threads[t]) ==> stopMutex == Some(t))
    && (stopMutex.Some? ==> stopMutex.value in threads && Stopper(threads[stopMutex.value]))
  }

  /** `operationCancel` belongs to the reservation in flight. */
  ghost predicate OperationTracked(operation: Option<ThreadId>, threads: Threads) {
    && (forall t :: t in threads && InFlight(threads[t]) ==> operation == Some(t))
    && (operation.Some? ==> operation.value in threads && InFlight(threads[operation.value]))
  }

  function ControlOf(p: Phase): ControlId
    requires InFlight(p)
  {
    p.id
  }

  /** A reservation in flight still has the authority it began under, or its
      context has been cancelled. */
  ghost predicate AuthorityKept(c: Core, threads: Threads) {
    forall t :: t in threads && InFlight(threads[t]) ==>
      t in c.cancelled || c.Admits(ControlOf(threads[t]), true)
  }

  /** While an acquisition is being shown, nobody else can own the desktop. */
  ghost predicate AdmissionHeld(c: Core, threads: Threads) {
    forall t :: t in threads && (threads[t].Showing? || threads[t].Resetting?) ==>
      && (c.status == Owned ==> c.id == threads[t].id)
      && c.states == map[]
  }

  /** Retained observations belong to the current owner, and are at most 64. */
  ghost predicate ObservationsOwned(c: Core) {
    && (c.status != Owned ==> c.states == map[])
    && (forall s :: s in c.states ==> c.states[s] == c.id)
    && |c.states| <= MAX_STATES
  }

  predicate StopsAt(p: Phase) { p.StopReset? || p.StopWaiting? || p.StopHolding? }

  /** The owner is the last admitted one; a stop that began after the last
      admission finds no owner. */
  ghost predicate EpochsOrdered(c: Core, admitted: seq<ControlId>, threads: Threads) {
    && (c.status == Owned ==> admitted != [] && c.id == admitted[|admitted| - 1])
    && (c.closed ==> c.status != Owned)
    && forall t :: t in threads && StopsAt(threads[t]) ==>
      && threads[t].epoch <= |admitted|
      && (threads[t].epoch == |admitted| ==> c.status != Owned)
  }

  /** Retained observations were recorded since the table was last emptied. */
  ghost predicate ObservationsCurrent(c: Core, observed: map<StateId, Observation>) {
    forall s :: s in c.states ==> s in observed && observed[s] == Observation(c.states[s], c.clears)
  }

  /** No consumed observation is retained or was consumed twice, and each was
      consumed under its own control before the table was emptied. */
  ghost predicate ActedOnce(states: map<StateId, ControlId>, observed: map<StateId, Observation>, acted: seq<Acted>) {
    && (forall i :: 0 <= i < |acted| && acted[i].state.Some? ==>
          var s := acted[i].state.value;
          && s !in states && s in observed
          && observed[s] == Observation(acted[i].control, acted[i].clears))
    && (forall i, j :: 0 <= i < j < |acted| && acted[i].state.Some? ==> acted[i].state != acted[j].state)
  }

  ghost predicate Reserved(p: Phase) { InFlight(p) || (p.Returning? && p.reserved) }

  /** A granted reservation is held by one thread or has been released once. */
  ghost predicate ReleasedOnce(threads: Threads, reserved: set<ThreadId>, released: multiset<ThreadId>) {
    && (forall t :: t in threads && Reserved(threads[t]) ==> t in reserved && released[t] == 0)
    && (forall t :: released[t] <= 1 && (released[t] == 1 ==> t in reserved))
    && (forall t :: t in reserved ==> t in threads)
    && (forall t :: t in reserved ==>
          || Reserved(threads[t])
          || (released[t] == 1 && (threads[t].AuthorizationFailed? || threads[t].Done?)))
  }

  ghost predicate DeskInv(d: Desk) {
    && TokenInOnePlace(d.gate, d.token, d.threads)
    && OneStopper(d.stopMutex, d.threads)
    && OperationTracked(d.core.operation, d.threads)
    && AuthorityKept(d.core, d.threads)
    && AdmissionHeld(d.core, d.threads)
    && ObservationsOwned(d.core)
    && EpochsOrdered(d.core, d.log.admitted, d.threads)
    && ObservationsCurrent(d.core, d.log.observed)
    && ActedOnce(d.core.states, d.log.observed, d.log.acted)
    && ReleasedOnce(d.threads, d.log.reserved, d.log.released)
  }

  lemma InitialDeskInv()
    ensures DeskInv(InitialDesk)
  {}

  /** The thread's phase changes, but not what the invariant says about it. */
  ghost predicate Quiet(d: Desk, t: ThreadId, p: Phase) {
    var o := if t in d.threads then d.threads[t] else Done;
    && Holding(o) == Holding(p)
    && Stopper(o) == Stopper(p)
    && InFlight(o) == InFlight(p)
    && (InFlight(p) ==> ControlOf(o) == ControlOf(p))
    && Reserved(o) == Reserved(p)
    && (p.Showing? || p.Resetting? ==> (o.Showing? || o.Resetting?) && o.id == p.id)
    && (StopsAt(p) ==> StopsAt(o) && o.epoch == p.epoch)
    && (t in d.log.reserved && !Reserved(p) ==> p.AuthorizationFailed? || p.Done?)
  }

  lemma QuietMoveKeepsPlaces(d: Desk, t: ThreadId, p: Phase)
    requires TokenInOnePlace(d.gate, d.token, d.threads) && OneStopper(d.stopMutex, d.threads) && Quiet(d, t, p)
    ensures TokenInOnePlace(d.gate, d.token, d.threads[t := p]) && OneStopper(d.stopMutex, d.threads[t := p])
  {
    hide Reserved, ControlOf;
  }

  lemma QuietMoveKeepsOperation(d: Desk, t: ThreadId, p: Phase)
    requires OperationTracked(d.core.operation, d.threads) && AuthorityKept(d.core, d.threads) && Quiet(d, t, p)
    ensures OperationTracked(d.core.operation, d.threads[t := p]) && AuthorityKept(d.core, d.threads[t := p])
  {
    hide Reserved, Holding, Stopper, StopsAt;
  }

  lemma QuietMoveKeepsLog(d: Desk, t: ThreadId, p: Phase)
    requires AdmissionHeld(d.core, d.threads) && EpochsOrdered(d.core, d.log.admitted, d.threads)
    requires ReleasedOnce(d.threads, d.log.reserved, d.log.released) && Quiet(d, t, p)
    ensures AdmissionHeld(d.core, d.threads[t := p]) && EpochsOrdered(d.core, d.log.admitted, d.threads[t := p])
    ensures ReleasedOnce(d.threads[t := p], d.log.reserved, d.log.released)
  {
    hide Holding, Stopper, ControlOf;
  }

  lemma QuietMoveKeepsInv(d: Desk, t: ThreadId, p: Phase)
    requires DeskInv(d) && Quiet(d, t, p)
    ensures DeskInv(d.To(t, p))
  {
    hide Quiet, TokenInOnePlace, OneStopper, OperationTracked, AuthorityKept, AdmissionHeld, EpochsOrdered,
         ReleasedOnce;
    QuietMoveKeepsPlaces(d, t, p);
    QuietMoveKeepsOperation(d, t, p);
    QuietMoveKeepsLog(d, t, p);
  }

  lemma StopperLeavesKeepsInv(d: Desk, t: ThreadId)
    requires DeskInv(d) && t in d.threads && (d.threads[t].StopReset? || d.threads[t].StopWaiting?)
    ensures DeskInv(d.To(t, Done).(stopMutex := None))
  {}

  lemma AdmittedKeepsInv(d: Desk, t: ThreadId, newId: ControlId, now: int)
    requires DeskInv(d) && d.At(t, Acquiring) && AdmitStep(d, t, Some(newId), now).Some?
    requires AdmitSection(d.core, Some(newId), now).1
    ensures DeskInv(AdmitStep(d, t, Some(newId), now).value)
  {}

  lemma TakeForAcquireKeepsInv(d: Desk, t: ThreadId)
    requires DeskInv(d) && TakeForAcquireStep(d, t).Some?
    ensures DeskInv(TakeForAcquireStep(d, t).value)
  {}

  lemma AdmitKeepsInv(d: Desk, t: ThreadId, newId: Option<ControlId>, now: int)
    requires DeskInv(d) && AdmitStep(d, t, newId, now).Some?
    ensures DeskInv(AdmitStep(d, t, newId, now).value)
  {
    if AdmitSection(d.core, newId, now).1 {
      AdmittedKeepsInv(d, t, newId.value, now);
    } else {
      QuietMoveKeepsInv(d, t, Returning(false, Finish));
    }
  }

  lemma ShownKeepsInv(d: Desk, t: ThreadId, ok: bool)
    requires DeskInv(d) && ShownStep(d, t, ok).Some?
    ensures DeskInv(ShownStep(d, t, ok).value)
  {
    QuietMoveKeepsInv(d, t, if ok then Returning(false, Finish) else Resetting(d.threads[t].id));
  }

  lemma ShowFailedKeepsInv(d: Desk, t: ThreadId, cleaned: bool)
    requires DeskInv(d) && ShowFailedStep(d, t, cleaned).Some?
    ensures DeskInv(ShowFailedStep(d, t, cleaned).value)
  {}

  lemma StopPutBackKeepsInv(d: Desk, t: ThreadId)
    requires DeskInv(d) && d.At(t, StopReturning)
    ensures DeskInv(d.Put().To(t, Done).(stopMutex := None))
  {}

  /** The reservation that is put back is released for the first time. */
  lemma ReturnedOnce(threads: Threads, log: Log, t: ThreadId, p: Phase)
    requires ReleasedOnce(threads, log.reserved, log.released)
    requires t in threads && threads[t].Returning? && (p.Done? || p.AuthorizationFailed?)
    ensures
      var log' := ReleaseLogged(log, t, threads[t].reserved);
      ReleasedOnce(threads[t := p], log'.reserved, log'.released)
  {}

  lemma ReturnedToken(d: Desk, t: ThreadId, p: Phase)
    requires TokenInOnePlace(d.gate, d.token, d.threads) && OperationTracked(d.core.operation, d.threads)
    requires AuthorityKept(d.core, d.threads)
    requires t in d.threads && d.threads[t].Returning? && (p.Done? || p.AuthorizationFailed?)
    ensures TokenInOnePlace(d.gate + 1, InGate, d.threads[t := p])
    ensures OperationTracked(d.core.operation, d.threads[t := p]) && AuthorityKept(d.core, d.threads[t := p])
  {
    hide ControlOf;
  }

  lemma ReturnedKeepsInv(d: Desk, t: ThreadId, reserved: bool, after: After, p: Phase)
    requires DeskInv(d) && d.At(t, Returning(reserved, after)) && (p.Done? || p.AuthorizationFailed?)
    ensures DeskInv(d.Put().(log := ReleaseLogged(d.log, t, reserved)).To(t, p))
  {
    hide ReleasedOnce, ObservationsOwned, ObservationsCurrent, ActedOnce, TokenInOnePlace, OperationTracked,
         AuthorityKept;
    ReturnedOnce(d.threads, d.log, t, p);
    ReturnedToken(d, t, p);
  }

  lemma PutBackKeepsInv(d: Desk, t: ThreadId)
    requires DeskInv(d) && PutBackStep(d, t).Some?
    ensures DeskInv(PutBackStep(d, t).value)
  {
    match d.threads[t] {
      case StopReturning => StopPutBackKeepsInv(d, t);
      case Returning(reserved, after) =>
        var p := if after.Finish? then Done else AuthorizationFailed(after.call);
        ReturnedKeepsInv(d, t, reserved, after, p);
    }
  }

  lemma StopStartKeepsInv(d: Desk, t: ThreadId)
    requires DeskInv(d) && StopStartStep(d, t).Some?
    ensures DeskInv(StopStartStep(d, t).value)
  {}

  lemma StopResetDoneKeepsInv(d: Desk, t: ThreadId, ok: bool)
    requires DeskInv(d) && StopResetDoneStep(d, t, ok).Some?
    ensures DeskInv(StopResetDoneStep(d, t, ok).value)
  {
    if ok {
      QuietMoveKeepsInv(d, t, StopWaiting(d.threads[t].epoch));
    } else {
      StopperLeavesKeepsInv(d, t);
    }
  }

  lemma StopTakeKeepsInv(d: Desk, t: ThreadId)
    requires DeskInv(d) && StopTakeStep(d, t).Some?
    ensures DeskInv(StopTakeStep(d, t).value)
  {}

  lemma StopGiveUpKeepsInv(d: Desk, t: ThreadId)
    requires DeskInv(d) && StopGiveUpStep(d, t).Some?
    ensures DeskInv(StopGiveUpStep(d, t).value)
  {
    if d.threads[t].StopWaiting? {
      StopperLeavesKeepsInv(d, t);
    } else {
      QuietMoveKeepsInv(d, t, StopReturning);
    }
  }

  lemma StopFinishKeepsInv(d: Desk, t: ThreadId)
    requires DeskInv(d) && StopFinishStep(d, t).Some?
    ensures DeskInv(StopFinishStep(d, t).value)
  {}

  lemma RefusedKeepsInv(d: Desk, t: ThreadId, use: Use)
    requires DeskInv(d) && t in d.threads && (d.threads[t].BeginChecking? || d.threads[t].BeginWaiting?)
    ensures DeskInv(d.Refused(t, use))
  {
    QuietMoveKeepsInv(d, t, if use.Native? then Done else AuthorizationFailed(use.call));
  }

  lemma BeginNativeKeepsInv(d: Desk, t: ThreadId, id: ControlId)
    requires DeskInv(d) && t !in d.threads
    ensures DeskInv(d.To(t, BeginChecking(id, Native)))
  {
    QuietMoveKeepsInv(d, t, BeginChecking(id, Native));
  }

  lemma BeginCheckKeepsInv(d: Desk, t: ThreadId)
    requires DeskInv(d) && BeginCheckStep(d, t).Some?
    ensures DeskInv(BeginCheckStep(d, t).value)
  {
    var BeginChecking(id, use) := d.threads[t];
    if d.core.Admits(id, use.Browser?) {
      QuietMoveKeepsInv(d, t, BeginWaiting(id, use));
    } else {
      RefusedKeepsInv(d, t, use);
    }
  }

  lemma BeginGiveUpKeepsInv(d: Desk, t: ThreadId)
    requires DeskInv(d) && BeginGiveUpStep(d, t).Some?
    ensures DeskInv(BeginGiveUpStep(d, t).value)
  {
    RefusedKeepsInv(d, t, d.threads[t].use);
  }

  lemma BeginTakeKeepsInv(d: Desk, t: ThreadId)
    requires DeskInv(d) && BeginTakeStep(d, t).Some?
    ensures DeskInv(BeginTakeStep(d, t).value)
  {}

  lemma BeginAbortKeepsInv(d: Desk, t: ThreadId)
    requires DeskInv(d) && BeginAbortStep(d, t).Some?
    ensures DeskInv(BeginAbortStep(d, t).value)
  {
    QuietMoveKeepsInv(d, t, Returning(false, AfterRefusal(d.threads[t].use)));
  }

  lemma BegunKeepsInv(d: Desk, t: ThreadId, id: ControlId, use: Use, now: int)
    requires DeskInv(d) && d.At(t, BeginHolding(id, use)) && d.core.Admits(id, use.Browser?)
    ensures DeskInv(BeginEnterStep(d, t, now).value)
  {}

  lemma BeginEnterKeepsInv(d: Desk, t: ThreadId, now: int)
    requires DeskInv(d) && BeginEnterStep(d, t, now).Some?
    ensures DeskInv(BeginEnterStep(d, t, now).value)
  {
    var BeginHolding(id, use) := d.threads[t];
    if d.core.Admits(id, use.Browser?) {
      BegunKeepsInv(d, t, id, use, now);
    } else {
      QuietMoveKeepsInv(d, t, Returning(false, AfterRefusal(use)));
    }
  }

  lemma InvalidatedKeepsInv(d: Desk, t: ThreadId, ok: bool)
    requires DeskInv(d) && InvalidatedStep(d, t, ok).Some?
    ensures DeskInv(InvalidatedStep(d, t, ok).value)
  {}

  lemma ObserveKeepsInv(d: Desk, t: ThreadId, s: StateId)
    requires DeskInv(d) && ObserveStep(d, t, s).Some?
    ensures DeskInv(ObserveStep(d, t, s).value)
  {}

  lemma ActKeepsInv(d: Desk, t: ThreadId, s: Option<StateId>)
    requires DeskInv(d) && ActStep(d, t, s).Some?
    ensures DeskInv(ActStep(d, t, s).value)
  {}

  lemma EndNativeKeepsInv(d: Desk, t: ThreadId)
    requires DeskInv(d) && EndNativeStep(d, t).Some?
    ensures DeskInv(EndNativeStep(d, t).value)
  {
    QuietMoveKeepsInv(d, t, Ending(d.threads[t].id, Finish));
  }

  lemma EndKeepsInv(d: Desk, t: ThreadId, now: int)
    requires DeskInv(d) && EndStep(d, t, now).Some?
    ensures DeskInv(EndStep(d, t, now).value)
  {}

  /** The steps that belong to no thread of the model. */
  ghost predicate Threadless(e: DeskEvent) {
    e.Expire? || e.Release? || e.LocalStop? || e.Close?
  }

  lemma ThreadlessStepKeepsInv(d: Desk, e: DeskEvent)
    requires DeskInv(d) && Threadless(e)
    ensures DeskInv(DeskNext(d, e).value)
  {}

  lemma DeskStepKeepsInv(d: Desk, e: DeskEvent)
    requires DeskInv(d) && DeskNext(d, e).Some?
    ensures DeskInv(DeskNext(d, e).value)
  {
    hide DeskInv, Quiet, TakeForAcquireStep, AdmitStep, ShownStep, ShowFailedStep, PutBackStep, StopStartStep,
         StopResetDoneStep, StopTakeStep, StopGiveUpStep, StopFinishStep, BeginCheckStep, BeginGiveUpStep,
         BeginTakeStep, BeginAbortStep, BeginEnterStep, InvalidatedStep, ObserveStep, ActStep, EndNativeStep, EndStep;
    match e
    case Expire(_) => ThreadlessStepKeepsInv(d, e);
    case TakeForAcquire(t) => TakeForAcquireKeepsInv(d, t);
    case Admit(t, newId, now) => AdmitKeepsInv(d, t, newId, now);
    case Shown(t, ok) => ShownKeepsInv(d, t, ok);
    case ShowFailed(t, cleaned) => ShowFailedKeepsInv(d, t, cleaned);
    case PutBack(t) => PutBackKeepsInv(d, t);
    case Release(_) => ThreadlessStepKeepsInv(d, e);
    case LocalStop => ThreadlessStepKeepsInv(d, e);
    case StopStart(t) => StopStartKeepsInv(d, t);
    case StopResetDone(t, ok) => StopResetDoneKeepsInv(d, t, ok);
    case StopTake(t) => StopTakeKeepsInv(d, t);
    case StopGiveUp(t) => StopGiveUpKeepsInv(d, t);
    case StopFinish(t) => StopFinishKeepsInv(d, t);
    case BeginNative(t, id) => BeginNativeKeepsInv(d, t, id);
    case BeginCheck(t) => BeginCheckKeepsInv(d, t);
    case BeginGiveUp(t) => BeginGiveUpKeepsInv(d, t);
    case BeginTake(t) => BeginTakeKeepsInv(d, t);
    case BeginAbort(t) => BeginAbortKeepsInv(d, t);
    case BeginEnter(t, now) => BeginEnterKeepsInv(d, t, now);
    case Invalidated(t, ok) => InvalidatedKeepsInv(d, t, ok);
    case Observe(t, s) => ObserveKeepsInv(d, t, s);
    case Act(t, s) => ActKeepsInv(d, t, s);
    case EndNative(t) => EndNativeKeepsInv(d, t);
    case End(t, now) => EndKeepsInv(d, t, now);
    case Close => ThreadlessStepKeepsInv(d, e);
  }
}
