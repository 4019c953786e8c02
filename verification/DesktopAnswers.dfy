/** What the coordinator answers: who gets the desktop, who may use it, and until
    when, told from the steps of a run. */
module DesktopAnswers {
  import opened Basics
  import opened Coordination
  import opened DesktopGate
  import opened DesktopGateSafety
  import opened BridgeSafety
  import opened DesktopProtocol
  import opened DesktopTheorems
  import opened DesktopHistory

  // The owner ---------------------------------------------------------------------------

  /** The owner `id` was admitted at some step before `k`, and nothing has ended that
      ownership since. */
  ghost predicate Owns(es: seq<SystemEvent>, ss: seq<System>, k: nat, id: ControlId)
    requires |ss| == |es| + 1 && k <= |es|
  {
    exists b: nat :: OwnedSince(es, ss, b, k) && es[b].step.newId == Some(id)
  }

  ghost predicate ClosedBefore(es: seq<SystemEvent>, k: nat)
    requires k <= |es|
  {
    exists j: nat :: j < k && es[j] == OfDesk(Close)
  }

  lemma OnlyCloseCloses(d: Desk, e: DeskEvent)
    requires DeskNext(d, e).Some?
    ensures DeskNext(d, e).value.core.closed <==> d.core.closed || e == Close
  {}

  lemma {:induction false} ClosedExactly(es: seq<SystemEvent>, ss: seq<System>, k: nat)
    requires IsRun(es, ss) && k <= |es|
    ensures ss[k].desk.core.closed <==> ClosedBefore(es, k)
    decreases k
  {
    hide DeskNext, Next, DeskInv;
    if k == 0 {
    } else {
      ClosedExactly(es, ss, k - 1);
      RunStep(es, ss, k - 1);
      if es[k - 1].OfDesk? {
        DeskStep(es, ss, k - 1);
        OnlyCloseCloses(ss[k - 1].desk, es[k - 1].step);
      } else {
        OtherStepsKeepCore(ss[k - 1], es[k - 1]);
      }
      if ClosedBefore(es, k) && !ClosedBefore(es, k - 1) {
        assert es[k - 1] == OfDesk(Close);
      }
      if ss[k].desk.core.closed && !ss[k - 1].desk.core.closed {
        assert es[k - 1] == OfDesk(Close);
      }
    }
  }

  /** The identifier of an owner does not change while it owns the desktop. */
  lemma OwnerStays(d: Desk, e: DeskEvent)
    requires DeskInv(d) && DeskNext(d, e).Some? && d.core.status == Owned
    ensures DeskNext(d, e).value.core.status == Owned ==> DeskNext(d, e).value.core.id == d.core.id
  {
    hide TokenInOnePlace, OneStopper, OperationTracked, AuthorityKept, AdmissionHeld, ObservationsOwned,
         ObservationsCurrent, ActedOnce, ReleasedOnce, ReleaseLogged;
  }

  lemma AdmissionNames(d: Desk, e: DeskEvent)
    requires DeskNext(d, e).Some? && DeskNext(d, e).value.log.admitted != d.log.admitted
    ensures e.Admit? && e.newId == Some(DeskNext(d, e).value.core.id) && e.newId.value != NO_CONTROL
    ensures DeskNext(d, e).value.core.status == Owned
  {}

  lemma {:induction false} OwnerSince(es: seq<SystemEvent>, ss: seq<System>, b: nat, k: nat)
    requires IsRun(es, ss) && k <= |es| && OwnedSince(es, ss, b, k)
    ensures ss[k].desk.core.status == Owned && es[b].step.newId == Some(ss[k].desk.core.id)
    ensures ss[k].desk.core.id != NO_CONTROL
    decreases k
  {
    hide DeskNext, Next, DeskInv, EndsOwnership;
    StillOwned(es, ss, b, k);
    RunStep(es, ss, k - 1);
    if b == k - 1 {
      DeskStep(es, ss, b);
      AdmissionNames(ss[b].desk, es[b].step);
    } else {
      OwnerSince(es, ss, b, k - 1);
      if es[k - 1].OfDesk? {
        DeskStep(es, ss, k - 1);
        OwnerStays(ss[k - 1].desk, es[k - 1].step);
      } else {
        OtherStepsKeepCore(ss[k - 1], es[k - 1]);
      }
    }
  }

  lemma NobodyOwnsAtFirst(es: seq<SystemEvent>, ss: seq<System>)
    requires IsRun(es, ss)
    ensures ss[0].desk.core.status == Free
  {}

  /** The coordinator's fields name the owner that the run tells. */
  lemma OwnerIsAdmitted(es: seq<SystemEvent>, ss: seq<System>, k: nat, id: ControlId)
    requires IsRun(es, ss) && k <= |es|
    ensures ss[k].desk.core.status == Owned && ss[k].desk.core.id == id <==> Owns(es, ss, k, id)
    ensures Owns(es, ss, k, id) ==> id != NO_CONTROL
  {
    hide Next, EndedAt;
    NobodyOwnsAtFirst(es, ss);
    if ss[k].desk.core.status == Owned && ss[k].desk.core.id == id {
      var b := AdmittedInBetween(es, ss, 0, k);
      OwnerSince(es, ss, b, k);
    }
    if b: nat :| OwnedSince(es, ss, b, k) && es[b].step.newId == Some(id) {
      OwnerSince(es, ss, b, k);
    }
  }

  // Who may use the desktop ---------------------------------------------------------------

  /** The coordinator is open, and the control owns the desktop, or a browser call
      without a control borrows a free one. */
  ghost predicate MayUse(es: seq<SystemEvent>, ss: seq<System>, k: nat, id: ControlId, use: Use)
    requires |ss| == |es| + 1 && k <= |es|
  {
    && !ClosedBefore(es, k)
    && (Owns(es, ss, k, id) || (use.Browser? && id == NO_CONTROL && ss[k].desk.core.status == Free))
  }

  /** What `begin` leaves of a caller that it refuses. */
  function Turned(use: Use): Phase {
    match use
    case Native => Done
    case Browser(call) => AuthorizationFailed(call)
  }

  lemma CheckDecides(d: Desk, t: ThreadId)
    requires DeskNext(d, BeginCheck(t)).Some?
    ensures t in d.threads && d.threads[t].BeginChecking? && t in DeskNext(d, BeginCheck(t)).value.threads
    ensures
      var BeginChecking(id, use) := d.threads[t];
      var c := d.core;
      DeskNext(d, BeginCheck(t)).value.threads[t] ==
        if !c.closed && ((id != NO_CONTROL && c.status == Owned && c.id == id)
                         || (use.Browser? && id == NO_CONTROL && c.status == Free))
        then BeginWaiting(id, use) else Turned(use)
  {}

  lemma EntryDecides(d: Desk, t: ThreadId, now: int)
    requires DeskInv(d) && DeskNext(d, BeginEnter(t, now)).Some?
    ensures t in d.threads && d.threads[t].BeginHolding? && t in DeskNext(d, BeginEnter(t, now)).value.threads
    ensures
      var BeginHolding(id, use) := d.threads[t];
      var c := d.core;
      var d' := DeskNext(d, BeginEnter(t, now)).value;
      if !c.closed && ((id != NO_CONTROL && c.status == Owned && c.id == id)
                       || (use.Browser? && id == NO_CONTROL && c.status == Free))
      then
        && d'.log.reserved == d.log.reserved + {t} && t !in d.log.reserved && d'.core.operation == Some(t)
        && d'.threads[t] == (if use.Browser? then Invalidating(id, use.call) else Operating(id, use))
      else
        && d'.log.reserved == d.log.reserved && d'.core == c
        && d'.threads[t].Returning? && !d'.threads[t].reserved
  {
    NewReservation(d, t);
  }

  /** `begin` lets a caller wait for the desktop exactly if it may use it. */
  lemma BeginChecksExactly(es: seq<SystemEvent>, ss: seq<System>, k: nat, t: ThreadId)
    requires IsRun(es, ss) && k < |es| && es[k] == OfDesk(BeginCheck(t))
    ensures t in ss[k].desk.threads && ss[k].desk.threads[t].BeginChecking? && t in ss[k + 1].desk.threads
    ensures
      var BeginChecking(id, use) := ss[k].desk.threads[t];
      ss[k + 1].desk.threads[t] == if MayUse(es, ss, k, id, use) then BeginWaiting(id, use) else Turned(use)
  {
    hide DeskNext, Next, DeskInv, Owns, ClosedBefore, Turned;
    DeskStep(es, ss, k);
    CheckDecides(ss[k].desk, t);
    var BeginChecking(id, use) := ss[k].desk.threads[t];
    ClosedExactly(es, ss, k);
    OwnerIsAdmitted(es, ss, k, id);
  }

  /** And it grants the reservation, once the caller has the token, exactly if that is
      still so. */
  lemma BeginGrantsExactly(es: seq<SystemEvent>, ss: seq<System>, k: nat, t: ThreadId, now: int)
    requires IsRun(es, ss) && k < |es| && es[k] == OfDesk(BeginEnter(t, now))
    ensures t in ss[k].desk.threads && ss[k].desk.threads[t].BeginHolding? && t in ss[k + 1].desk.threads
    ensures
      var BeginHolding(id, use) := ss[k].desk.threads[t];
      var d := ss[k + 1].desk;
      if MayUse(es, ss, k, id, use)
      then
        && d.log.reserved == ss[k].desk.log.reserved + {t} && t !in ss[k].desk.log.reserved
        && d.core.operation == Some(t)
        && d.threads[t] == (if use.Browser? then Invalidating(id, use.call) else Operating(id, use))
      else
        && d.log.reserved == ss[k].desk.log.reserved && d.core == ss[k].desk.core
        && d.threads[t].Returning? && !d.threads[t].reserved
  {
    hide DeskNext, Next, DeskInv, Owns, ClosedBefore;
    RunStep(es, ss, k);
    DeskStep(es, ss, k);
    EntryDecides(ss[k].desk, t, now);
    ClosedExactly(es, ss, k);
    OwnerIsAdmitted(es, ss, k, ss[k].desk.threads[t].id);
  }

  /** The end of an operation cancels its context and gives the reservation back, with
      the token; whoever was refused by the gate is told. */
  lemma OperationsEndExactly(s: System, t: ThreadId, now: int)
    requires Reachable(s) && t in s.desk.threads && s.desk.threads[t].Ending?
    ensures
      var d := s.desk;
      var after := d.threads[t].after;
      var d' := DeskNext(d, End(t, now));
      && d'.Some? && t in d'.value.threads
      && d'.value.core.operation.None? && d'.value.core.cancelled == d.core.cancelled + {t}
      && d'.value.core.states == d.core.states && d'.value.core.closed == d.core.closed
      && var d'' := DeskNext(d'.value, PutBack(t));
         && d''.Some? && t in d''.value.threads
         && d''.value.log.released == d.log.released + multiset{t} && d''.value.gate == 1
         && d''.value.threads[t] == (if after.Finish? then Done else AuthorizationFailed(after.call))
  {
    hide Reachable, BridgeInv, Linked, OneStopper, OperationTracked, AuthorityKept, AdmissionHeld,
         ObservationsOwned, EpochsOrdered, ObservationsCurrent, ActedOnce, ReleasedOnce;
    ReachableKeepsInvariant(s);
    assert Holding(s.desk.threads[t]);
  }

  /** A caller of `begin`, or a stop, that waits for the token can take it exactly while
      nobody holds it, and can give up at any time; so can it once it has the token,
      which then goes back. */
  lemma WaitersMayLeave(s: System, t: ThreadId)
    requires Reachable(s) && t in s.desk.threads
    ensures
      var d := s.desk;
      match d.threads[t]
      case BeginWaiting(id, use) =>
        && (DeskNext(d, BeginTake(t)).Some? <==> forall u :: u in d.threads ==> !Holding(d.threads[u]))
        && DeskNext(d, BeginGiveUp(t)) == Some(d.To(t, Turned(use)))
      case BeginHolding(id, use) =>
        DeskNext(d, BeginAbort(t)) == Some(d.To(t, Returning(false, AfterRefusal(use))))
      case StopReset(_) => DeskNext(d, StopResetDone(t, false)) == Some(d.To(t, Done).(stopMutex := None))
      case StopWaiting(_) =>
        && (DeskNext(d, StopTake(t)).Some? <==> forall u :: u in d.threads ==> !Holding(d.threads[u]))
        && DeskNext(d, StopGiveUp(t)) == Some(d.To(t, Done).(stopMutex := None))
      case StopHolding(_) => DeskNext(d, StopGiveUp(t)) == Some(d.To(t, StopReturning))
      case _ => true
  {
    hide Reachable;
    OneToken(s);
  }

  // Who gets the desktop --------------------------------------------------------------------

  /** An acquisition starts exactly while nobody holds the token. */
  lemma AcquisitionStartsExactly(s: System, t: ThreadId)
    requires Reachable(s) && t !in s.desk.threads
    ensures DeskNext(s.desk, TakeForAcquire(t)).Some? <==>
      forall u :: u in s.desk.threads ==> !Holding(s.desk.threads[u])
  {
    hide Reachable;
    OneToken(s);
  }

  lemma AdmissionDecides(d: Desk, t: ThreadId, newId: Option<ControlId>, now: int)
    requires DeskNext(d, Admit(t, newId, now)).Some?
    ensures
      var d' := DeskNext(d, Admit(t, newId, now)).value;
      if !d.core.closed && d.core.status == Free && newId.Some?
      then
        && d'.log.admitted == d.log.admitted + [newId.value]
        && d'.core == d.core.(status := Owned, id := newId.value, expires := now + 300)
      else d'.log.admitted == d.log.admitted && d'.core == d.core
  {}

  /** An acquisition is granted exactly if the coordinator is open, the desktop is
      free, and an identifier could be drawn; otherwise nothing changes hands. */
  lemma AdmissionIsGrantedExactly(es: seq<SystemEvent>, ss: seq<System>, k: nat,
                                  t: ThreadId, newId: Option<ControlId>, now: int)
    requires IsRun(es, ss) && k < |es| && es[k] == OfDesk(Admit(t, newId, now))
    ensures
      if !ClosedBefore(es, k) && ss[k].desk.core.status == Free && newId.Some?
      then Owns(es, ss, k + 1, newId.value) && ss[k + 1].desk.core.expires == now + 300
      else ss[k + 1].desk.core == ss[k].desk.core
  {
    hide DeskNext, Next, DeskInv, Owns, ClosedBefore;
    DeskStep(es, ss, k);
    AdmissionDecides(ss[k].desk, t, newId, now);
    ClosedExactly(es, ss, k);
    if newId.Some? {
      OwnerIsAdmitted(es, ss, k + 1, newId.value);
    }
  }

  // Where the desktop is ----------------------------------------------------------------------

  /** The status after a step: what an admission, the end of an ownership, a failed
      acquisition and a finished stop make of it; nothing else moves it. */
  lemma StatusMovesExactly(d: Desk, e: DeskEvent)
    requires DeskNext(d, e).Some?
    ensures
      var c, c' := d.core, DeskNext(d, e).value.core;
      c'.status ==
        match e
        case Admit(_, newId, _) => if !c.closed && c.status == Free && newId.Some? then Owned else c.status
        case ShowFailed(_, cleaned) => if cleaned then Free else Stopping
        case StopFinish(_) => if c.closed then c.status else Free
        case Close => if c.closed then c.status else Stopping
        case Expire(now) => if c.status == Owned && c.operation.None? && now >= c.expires then Stopping else c.status
        case Release(id) => if c.status == Owned && id == c.id && id != NO_CONTROL then Stopping else c.status
        case LocalStop => if c.status == Owned then Stopping else c.status
        case _ => c.status
  {}

  /** A stop begins exactly while the desktop is stopping, the coordinator is open and
      no other stop is in progress. */
  lemma StopsBeginExactly(s: System, t: ThreadId)
    requires Reachable(s) && t !in s.desk.threads
    ensures DeskNext(s.desk, StopStart(t)).Some? <==>
      && s.desk.core.status == Stopping && !s.desk.core.closed
      && forall u :: u in s.desk.threads ==> !Stopper(s.desk.threads[u])
  {
    hide Reachable, BridgeInv, Linked, TokenInOnePlace, OperationTracked, AuthorityKept, AdmissionHeld,
         ObservationsOwned, EpochsOrdered, ObservationsCurrent, ActedOnce, ReleasedOnce;
    ReachableKeepsInvariant(s);
    if s.desk.stopMutex.Some? {
      var u: ThreadId := s.desk.stopMutex.value;
      assert u in s.desk.threads && Stopper(s.desk.threads[u]);
    }
  }

  // Until when ----------------------------------------------------------------------------------

  /** Step `u` is a use of the desktop by its owner, and none follows it before `n`. */
  ghost predicate LastUse(es: seq<SystemEvent>, ss: seq<System>, u: nat, n: nat)
    requires |ss| == |es| + 1 && n <= |es|
  {
    u < n && UsedAt(es, ss, u) && forall k: nat :: u < k < n ==> !UsedAt(es, ss, k)
  }

  ghost predicate UsedAt(es: seq<SystemEvent>, ss: seq<System>, u: nat)
    requires |ss| == |es| + 1 && u < |es|
  {
    es[u].OfDesk? && DeskNext(ss[u].desk, es[u].step).Some? && Renews(ss[u].desk, es[u].step)
  }

  lemma ExpiryStep(es: seq<SystemEvent>, ss: seq<System>, k: nat)
    requires IsRun(es, ss) && k < |es|
    ensures UsedAt(es, ss, k) ==> ss[k + 1].desk.core.expires == es[k].step.now + 300
    ensures !UsedAt(es, ss, k) ==> ss[k + 1].desk.core.expires == ss[k].desk.core.expires
  {
    hide DeskNext, Next, DeskInv, Renews, Reachable;
    RunStep(es, ss, k);
    RunReaches(es, ss, k);
    if es[k].OfDesk? {
      DeskStep(es, ss, k);
      OwnershipOutlastsUse(ss[k], es[k].step);
    } else {
      OtherStepsKeepCore(ss[k], es[k]);
    }
  }

  lemma AdmissionRenews(es: seq<SystemEvent>, ss: seq<System>, b: nat)
    requires IsRun(es, ss) && b < |es| && AdmittedAt(es, ss, b)
    ensures UsedAt(es, ss, b)
  {
    hide DeskNext, Next, DeskInv;
    DeskStep(es, ss, b);
  }

  lemma {:induction false} FindLastUse(es: seq<SystemEvent>, ss: seq<System>, b: nat, n: nat) returns (u: nat)
    requires IsRun(es, ss) && b < n <= |es| && UsedAt(es, ss, b)
    ensures LastUse(es, ss, u, n) && ss[n].desk.core.expires == es[u].step.now + 300
    decreases n
  {
    hide UsedAt, Next;
    ExpiryStep(es, ss, n - 1);
    if UsedAt(es, ss, n - 1) {
      u := n - 1;
    } else {
      u := FindLastUse(es, ss, b, n - 1);
    }
  }

  lemma ExpiryDecides(d: Desk, now: int)
    requires DeskInv(d) && d.core.status == Owned
    ensures DeskNext(d, Expire(now)).value.core.status != Owned <==>
      now >= d.core.expires && forall t :: t in d.threads ==> !InFlight(d.threads[t])
  {
    hide TokenInOnePlace, OneStopper, AuthorityKept, AdmissionHeld, ObservationsOwned, EpochsOrdered,
         ObservationsCurrent, ActedOnce, ReleasedOnce;
    if d.core.operation.Some? {
      var t: ThreadId := d.core.operation.value;
      assert t in d.threads && InFlight(d.threads[t]);
    }
  }

  /** Idle expiry takes the desktop from its owner exactly if no operation is in flight
      and the last use, by admission or by the beginning or the end of an operation of
      its own, was five minutes ago or more. */
  lemma ExpiryIsFromLastUse(es: seq<SystemEvent>, ss: seq<System>, n: nat, now: int)
    requires IsRun(es, ss) && n < |es| && es[n] == OfDesk(Expire(now)) && ss[n].desk.core.status == Owned
    ensures ss[n + 1].desk.core.status != Owned <==>
      && (forall t :: t in ss[n].desk.threads ==> !InFlight(ss[n].desk.threads[t]))
      && exists u: nat :: LastUse(es, ss, u, n) && now >= es[u].step.now + 300
  {
    hide DeskNext, Next, DeskInv, UsedAt;
    NobodyOwnsAtFirst(es, ss);
    var b := AdmittedInBetween(es, ss, 0, n);
    AdmissionRenews(es, ss, b);
    var u := FindLastUse(es, ss, b, n);
    forall v: nat | LastUse(es, ss, v, n)
      ensures v == u
    {}
    RunStep(es, ss, n);
    DeskStep(es, ss, n);
    ExpiryDecides(ss[n].desk, now);
  }

  // Observations ----------------------------------------------------------------------------------

  lemma ObservingDecides(d: Desk, t: ThreadId, s: StateId)
    requires DeskNext(d, Observe(t, s)).Some?
    ensures t in d.threads && d.threads[t].Operating? && s !in d.log.observed
    ensures s in DeskNext(d, Observe(t, s)).value.log.observed <==>
      d.core.status == Owned && d.core.id == d.threads[t].id
  {}

  /** An observation is recorded exactly if the control that made it still owns the
      desktop. */
  lemma ObservationsAreRecordedExactly(es: seq<SystemEvent>, ss: seq<System>, k: nat, t: ThreadId, s: StateId)
    requires IsRun(es, ss) && k < |es| && es[k] == OfDesk(Observe(t, s))
    ensures t in ss[k].desk.threads && ss[k].desk.threads[t].Operating? && s !in ss[k].desk.log.observed
    ensures s in ss[k + 1].desk.log.observed <==> Owns(es, ss, k, ss[k].desk.threads[t].id)
  {
    hide DeskNext, Next, DeskInv, Owns;
    DeskStep(es, ss, k);
    ObservingDecides(ss[k].desk, t, s);
    OwnerIsAdmitted(es, ss, k, ss[k].desk.threads[t].id);
  }
}
