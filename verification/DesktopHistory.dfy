/** What happens between two steps of a run of the desktop protocol: between the
    beginning and the end of a stop, between an observation and the action that
    uses it, and between the request for a reservation and its storage. */
module DesktopHistory {
  import opened Basics
  import opened Coordination
  import opened DesktopGate
  import opened DesktopGateSafety
  import opened BrowserBridge
  import opened BridgeSafety
  import opened DesktopProtocol
  import opened DesktopTheorems

  lemma RunStep(es: seq<SystemEvent>, ss: seq<System>, i: nat)
    requires IsRun(es, ss) && i < |es|
    ensures Next(ss[i], es[i]) == Some(ss[i + 1]) && DeskInv(ss[i].desk)
  {
    hide SystemInv, DeskInv, Next;
    EveryRunKeepsInvariant(es, ss, i);
    DeskInvOf(ss[i]);
    assert Next(ss[i], es[i]) == Some(ss[i + 1]);
  }

  lemma DeskStep(es: seq<SystemEvent>, ss: seq<System>, i: nat)
    requires IsRun(es, ss) && i < |es| && es[i].OfDesk?
    ensures DeskNext(ss[i].desk, es[i].step) == Some(ss[i + 1].desk)
  {
    hide DeskNext, DeskInv;
    RunStep(es, ss, i);
  }

  /** A step that is not the coordinator's own changes neither its fields nor its
      log, and moves no thread into or out of `finishStop`. */
  lemma OtherStepsKeepCore(s: System, e: SystemEvent)
    requires Next(s, e).Some? && !e.OfDesk?
    ensures Next(s, e).value.desk.core == s.desk.core && Next(s, e).value.desk.log == s.desk.log
    ensures forall t :: t in s.desk.threads ==>
      t in Next(s, e).value.desk.threads && StopsAt(Next(s, e).value.desk.threads[t]) == StopsAt(s.desk.threads[t])
  {}

  // A stop ---------------------------------------------------------------------------------

  /** A failed acquisition frees the desktop. */
  ghost predicate FreedAt(es: seq<SystemEvent>, a: nat)
    requires a < |es|
  {
    es[a].OfDesk? && es[a].step.ShowFailed? && es[a].step.cleaned
  }

  /** An owner is admitted. */
  ghost predicate AdmittedAt(es: seq<SystemEvent>, ss: seq<System>, b: nat)
    requires |ss| == |es| + 1 && b < |es|
  {
    es[b].OfDesk? && es[b].step.Admit? && ss[b + 1].desk.log.admitted != ss[b].desk.log.admitted
  }

  /** The step ends an ownership, if there is one. */
  ghost predicate EndedAt(es: seq<SystemEvent>, ss: seq<System>, k: nat)
    requires |ss| == |es| + 1 && k < |es|
  {
    es[k].OfDesk? && EndsOwnership(ss[k].desk, es[k].step)
  }

  /** A thread that is past the wait of `finishStop` never comes back to it. */
  lemma LeavesForGood(d: Desk, e: DeskEvent, t: ThreadId)
    requires DeskNext(d, e).Some? && t in d.threads
    ensures t in DeskNext(d, e).value.threads
    ensures !StopsAt(d.threads[t]) ==> !StopsAt(DeskNext(d, e).value.threads[t])
  {
    hide ExpireSection, AdmitSection, AdmitFailedSection, ReleaseSection, LocalStopSection, FinishStopSection,
         BeginSection, EndSection, ObserveSection, ConsumeSection, CloseSection;
  }

  lemma ThreadStays(es: seq<SystemEvent>, ss: seq<System>, i: nat, t: ThreadId)
    requires IsRun(es, ss) && i < |es| && t in ss[i].desk.threads
    ensures t in ss[i + 1].desk.threads
    ensures StopsAt(ss[i + 1].desk.threads[t]) ==> StopsAt(ss[i].desk.threads[t])
  {
    hide DeskNext, Next, DeskInv;
    RunStep(es, ss, i);
    if es[i].OfDesk? {
      DeskStep(es, ss, i);
      LeavesForGood(ss[i].desk, es[i].step, t);
    } else {
      OtherStepsKeepCore(ss[i], es[i]);
    }
  }

  /** Until it finishes, the stop is in its wait. */
  lemma {:induction false} StopWaits(es: seq<SystemEvent>, ss: seq<System>, k: nat, n: nat, t: ThreadId)
    requires IsRun(es, ss) && k <= n < |es| && es[n] == OfDesk(StopFinish(t)) && t in ss[k].desk.threads
    ensures StopsAt(ss[k].desk.threads[t])
    decreases n - k
  {
    hide Next;
    if k == n {
      DeskStep(es, ss, n);
    } else {
      ThreadStays(es, ss, k, t);
      StopWaits(es, ss, k + 1, n, t);
    }
  }

  /** While a stop waits, only a failed acquisition can free the desktop. */
  lemma StoppingStays(d: Desk, e: DeskEvent, t: ThreadId)
    requires DeskInv(d) && DeskNext(d, e).Some? && d.core.status == Stopping
    requires t in d.threads && StopsAt(d.threads[t])
    requires t in DeskNext(d, e).value.threads && StopsAt(DeskNext(d, e).value.threads[t])
    ensures DeskNext(d, e).value.core.status == Stopping || (e.ShowFailed? && e.cleaned)
  {
    hide TokenInOnePlace, OperationTracked, AuthorityKept, AdmissionHeld, ObservationsOwned, ObservationsCurrent,
         ActedOnce, ReleasedOnce, EpochsOrdered, ReleaseLogged;
  }

  lemma StatusStays(es: seq<SystemEvent>, ss: seq<System>, i: nat, t: ThreadId)
    requires IsRun(es, ss) && i < |es| && ss[i].desk.core.status == Stopping
    requires t in ss[i].desk.threads && StopsAt(ss[i].desk.threads[t])
    requires t in ss[i + 1].desk.threads && StopsAt(ss[i + 1].desk.threads[t])
    ensures ss[i + 1].desk.core.status == Stopping || FreedAt(es, i)
  {
    hide DeskNext, Next, DeskInv;
    RunStep(es, ss, i);
    if es[i].OfDesk? {
      DeskStep(es, ss, i);
      StoppingStays(ss[i].desk, es[i].step, t);
    } else {
      OtherStepsKeepCore(ss[i], es[i]);
    }
  }

  /** A stop is in progress from step `m` on. */
  ghost predicate StopInProgress(es: seq<SystemEvent>, ss: seq<System>, m: nat, n: nat, t: ThreadId) {
    IsRun(es, ss) && m < n < |es| && es[m] == OfDesk(StopStart(t)) && es[n] == OfDesk(StopFinish(t))
  }

  lemma StopStarts(es: seq<SystemEvent>, ss: seq<System>, m: nat, n: nat, t: ThreadId)
    requires StopInProgress(es, ss, m, n, t)
    ensures t in ss[m + 1].desk.threads && ss[m + 1].desk.core.status == Stopping
  {
    hide Next;
    DeskStep(es, ss, m);
  }

  lemma {:induction false} StopIsAround(es: seq<SystemEvent>, ss: seq<System>, m: nat, n: nat, t: ThreadId, k: nat)
    requires StopInProgress(es, ss, m, n, t) && m < k <= n
    ensures t in ss[k].desk.threads && StopsAt(ss[k].desk.threads[t])
    decreases k
  {
    if k == m + 1 {
      StopStarts(es, ss, m, n, t);
    } else {
      StopIsAround(es, ss, m, n, t, k - 1);
      ThreadStays(es, ss, k - 1, t);
    }
    StopWaits(es, ss, k, n, t);
  }

  /** If the desktop is not stopping any more, a failed acquisition has freed it. */
  lemma {:induction false} FreedInBetween(es: seq<SystemEvent>, ss: seq<System>, m: nat, n: nat, t: ThreadId, k: nat)
    requires StopInProgress(es, ss, m, n, t) && m < k <= n && ss[k].desk.core.status != Stopping
    ensures exists a: nat :: m < a < k && FreedAt(es, a)
    decreases k
  {
    hide FreedAt;
    StopStarts(es, ss, m, n, t);
    assert k > m + 1;
    if ss[k - 1].desk.core.status != Stopping {
      FreedInBetween(es, ss, m, n, t, k - 1);
    } else {
      StopIsAround(es, ss, m, n, t, k - 1);
      StopIsAround(es, ss, m, n, t, k);
      StatusStays(es, ss, k - 1, t);
    }
  }

  /** Whoever owns the desktop owned it before, or has just been admitted. */
  lemma OwnedBefore(d: Desk, e: DeskEvent)
    requires DeskInv(d) && DeskNext(d, e).Some? && DeskNext(d, e).value.core.status == Owned
    ensures (d.core.status == Owned && !EndsOwnership(d, e))
      || (e.Admit? && DeskNext(d, e).value.log.admitted != d.log.admitted && d.core.status == Free)
  {
    hide TokenInOnePlace, OneStopper, OperationTracked, AuthorityKept, AdmissionHeld, ObservationsOwned,
         ObservationsCurrent, ActedOnce, ReleasedOnce, ReleaseLogged;
  }

  /** An ownership lasts until a step ends it; an admission begins one. */
  lemma OwnedAfter(d: Desk, e: DeskEvent)
    requires DeskInv(d) && DeskNext(d, e).Some?
    ensures d.core.status == Owned && !EndsOwnership(d, e) ==> DeskNext(d, e).value.core.status == Owned
    ensures e.Admit? && DeskNext(d, e).value.log.admitted != d.log.admitted ==>
      d.core.status == Free && DeskNext(d, e).value.core.status == Owned
  {
    hide TokenInOnePlace, OneStopper, OperationTracked, AuthorityKept, ObservationsOwned, ObservationsCurrent,
         ActedOnce, ReleasedOnce;
  }

  lemma OwnershipStep(es: seq<SystemEvent>, ss: seq<System>, i: nat)
    requires IsRun(es, ss) && i < |es|
    ensures ss[i + 1].desk.core.status == Owned <==>
      (ss[i].desk.core.status == Owned && !EndedAt(es, ss, i)) || AdmittedAt(es, ss, i)
    ensures AdmittedAt(es, ss, i) ==> ss[i].desk.core.status == Free
  {
    hide DeskNext, Next, DeskInv, EndsOwnership;
    RunStep(es, ss, i);
    if es[i].OfDesk? {
      DeskStep(es, ss, i);
      OwnedAfter(ss[i].desk, es[i].step);
      if ss[i + 1].desk.core.status == Owned {
        OwnedBefore(ss[i].desk, es[i].step);
      }
    } else {
      OtherStepsKeepCore(ss[i], es[i]);
    }
  }

  /** An ownership that nothing has ended since its admission at step `b`. */
  ghost predicate OwnedSince(es: seq<SystemEvent>, ss: seq<System>, b: nat, k: nat)
    requires |ss| == |es| + 1 && k <= |es|
  {
    b < k && AdmittedAt(es, ss, b) && forall j: nat :: b < j < k ==> !EndedAt(es, ss, j)
  }

  lemma {:induction false} AdmittedInBetween(es: seq<SystemEvent>, ss: seq<System>, m: nat, k: nat) returns (b: nat)
    requires IsRun(es, ss) && m < k <= |es|
    requires ss[m].desk.core.status != Owned && ss[k].desk.core.status == Owned
    ensures m <= b && OwnedSince(es, ss, b, k)
    decreases k
  {
    hide EndedAt, AdmittedAt;
    OwnershipStep(es, ss, k - 1);
    if AdmittedAt(es, ss, k - 1) {
      b := k - 1;
    } else {
      b := AdmittedInBetween(es, ss, m, k - 1);
    }
  }

  lemma {:induction false} StillOwned(es: seq<SystemEvent>, ss: seq<System>, b: nat, k: nat)
    requires IsRun(es, ss) && k <= |es| && OwnedSince(es, ss, b, k)
    ensures ss[k].desk.core.status == Owned
    decreases k
  {
    hide EndedAt, AdmittedAt;
    OwnershipStep(es, ss, k - 1);
    if b == k - 1 {
    } else {
      StillOwned(es, ss, b, k - 1);
    }
  }

  /** Whoever owns the desktop when a stop finishes owns it no more. */
  lemma StopFinishEnds(es: seq<SystemEvent>, ss: seq<System>, n: nat, t: ThreadId)
    requires IsRun(es, ss) && n < |es| && es[n] == OfDesk(StopFinish(t))
    ensures ss[n + 1].desk.core.status != Owned
  {
    hide Next;
    OwnershipStep(es, ss, n);
  }

  /** A stop ends an ownership exactly if, since the stop began, a failed
      acquisition has freed the desktop, then an owner was admitted, and nothing
      else has ended that ownership. Without the failed acquisition the stop of an
      earlier owner never reaches a later one. */
  lemma LateStopExactly(es: seq<SystemEvent>, ss: seq<System>, m: nat, n: nat, t: ThreadId)
    requires StopInProgress(es, ss, m, n, t)
    ensures (ss[n].desk.core.status == Owned && ss[n + 1].desk.core.status != Owned) <==>
      exists a: nat, b: nat :: m < a < b && b < n && FreedAt(es, a) && OwnedSince(es, ss, b, n)
  {
    hide FreedAt, EndedAt, AdmittedAt;
    StopFinishEnds(es, ss, n, t);
    if ss[n].desk.core.status == Owned {
      StopStarts(es, ss, m, n, t);
      var b := AdmittedInBetween(es, ss, m + 1, n);
      OwnershipStep(es, ss, b);
      FreedInBetween(es, ss, m, n, t, b);
      var a: nat :| m < a < b && FreedAt(es, a);
      assert m < a < b && b < n && FreedAt(es, a) && OwnedSince(es, ss, b, n);
    } else if a: nat, b: nat :| m < a < b && b < n && FreedAt(es, a) && OwnedSince(es, ss, b, n) {
      StillOwned(es, ss, b, n);
    }
  }

  // An observation ----------------------------------------------------------------------------

  /** The step invalidates observations: a browser-visible operation, a validated
      action, the end of an ownership, or an observation that empties a full table. */
  predicate Clears(d: Desk, e: DeskEvent)
    requires DeskNext(d, e).Some?
  {
    match e
    case Invalidated(_, ok) => ok
    case Act(t, s) => s.None? || (s.value in d.core.states && d.core.states[s.value] == d.threads[t].id)
    case LocalStop => d.core.status == Owned
    case Close => !d.core.closed
    case StopFinish(_) => true
    case Release(id) => d.core.status == Owned && id == d.core.id && id != NO_CONTROL
    case Expire(now) => d.core.status == Owned && d.core.operation.None? && now >= d.core.expires
    case Observe(t, s) => d.core.status == Owned && d.core.id == d.threads[t].id && |d.core.states| >= 64
    case _ => false
  }

  ghost predicate ClearedAt(es: seq<SystemEvent>, ss: seq<System>, k: nat)
    requires |ss| == |es| + 1 && k < |es|
  {
    es[k].OfDesk? && DeskNext(ss[k].desk, es[k].step).Some? && Clears(ss[k].desk, es[k].step)
  }

  lemma ClearingIsCounted(d: Desk, e: DeskEvent)
    requires DeskNext(d, e).Some?
    ensures DeskNext(d, e).value.core.clears >= d.core.clears
    ensures Clears(d, e) ==> DeskNext(d, e).value.core.clears > d.core.clears
  {}

  lemma ClearsStep(es: seq<SystemEvent>, ss: seq<System>, i: nat)
    requires IsRun(es, ss) && i < |es|
    ensures ss[i + 1].desk.core.clears >= ss[i].desk.core.clears
    ensures ClearedAt(es, ss, i) ==> ss[i + 1].desk.core.clears > ss[i].desk.core.clears
  {
    hide DeskNext, Next, DeskInv, Clears;
    RunStep(es, ss, i);
    if es[i].OfDesk? {
      DeskStep(es, ss, i);
      ClearingIsCounted(ss[i].desk, es[i].step);
    } else {
      OtherStepsKeepCore(ss[i], es[i]);
    }
  }

  lemma {:induction false} ClearsGrow(es: seq<SystemEvent>, ss: seq<System>, i: nat, j: nat)
    requires IsRun(es, ss) && i <= j <= |es|
    ensures ss[i].desk.core.clears <= ss[j].desk.core.clears
    decreases j
  {
    if i == j {
    } else {
      ClearsGrow(es, ss, i, j - 1);
      ClearsStep(es, ss, j - 1);
    }
  }

  /** The step recorded observation `s` under a control. */
  ghost predicate ObservedAt(es: seq<SystemEvent>, ss: seq<System>, i: nat, s: StateId, id: ControlId)
    requires |ss| == |es| + 1 && i < |es|
  {
    && es[i].OfDesk? && es[i].step.Observe? && es[i].step.s == s
    && es[i].step.t in ss[i].desk.threads && ss[i].desk.threads[es[i].step.t].Operating?
    && ss[i].desk.threads[es[i].step.t].id == id && s in ss[i + 1].desk.log.observed
  }

  /** The observation of step `i` is still good at step `j`: nothing in between
      invalidates observations. */
  ghost predicate ObservationStands(es: seq<SystemEvent>, ss: seq<System>, i: nat, j: nat, s: StateId, id: ControlId)
    requires |ss| == |es| + 1 && j < |es|
  {
    i < j && ObservedAt(es, ss, i, s, id) && forall k: nat :: i < k < j ==> !ClearedAt(es, ss, k)
  }

  lemma ObservesOnce(d: Desk, e: DeskEvent, s: StateId)
    requires DeskNext(d, e).Some? && s in DeskNext(d, e).value.log.observed
    ensures s in d.log.observed ==> DeskNext(d, e).value.log.observed[s] == d.log.observed[s]
    ensures s !in d.log.observed ==>
      && e.Observe? && e.s == s && e.t in d.threads && d.threads[e.t].Operating?
      && DeskNext(d, e).value.log.observed[s] == Observation(d.threads[e.t].id, DeskNext(d, e).value.core.clears)
  {}

  lemma {:induction false} WasObserved(es: seq<SystemEvent>, ss: seq<System>, j: nat, s: StateId) returns (i: nat)
    requires IsRun(es, ss) && j <= |es| && s in ss[j].desk.log.observed
    ensures i < j && ObservedAt(es, ss, i, s, ss[j].desk.log.observed[s].control)
    ensures ss[j].desk.log.observed[s].clears == ss[i + 1].desk.core.clears
    decreases j
  {
    hide DeskNext, Next, DeskInv;
    assert j > 0;
    RunStep(es, ss, j - 1);
    if es[j - 1].OfDesk? {
      DeskStep(es, ss, j - 1);
      ObservesOnce(ss[j - 1].desk, es[j - 1].step, s);
    } else {
      OtherStepsKeepCore(ss[j - 1], es[j - 1]);
    }
    if s in ss[j - 1].desk.log.observed {
      i := WasObserved(es, ss, j - 1, s);
    } else {
      i := j - 1;
    }
  }

  lemma OnlyActActs(d: Desk, e: DeskEvent)
    requires DeskNext(d, e).Some? && DeskNext(d, e).value.log.acted != d.log.acted
    ensures e.Act?
  {
    hide ExpireSection, AdmitSection, AdmitFailedSection, ReleaseSection, LocalStopSection, FinishStopSection,
         BeginSection, EndSection, ObserveSection, ConsumeSection, CloseSection;
  }

  /** The observation is retained for the control that acts. */
  predicate Retained(d: Desk, s: StateId, id: ControlId) { s in d.core.states && d.core.states[s] == id }

  lemma ActingIsDecided(d: Desk, t: ThreadId, s: Option<StateId>)
    requires DeskNext(d, Act(t, s)).Some?
    ensures t in d.threads && d.threads[t].Operating? && d.threads[t].use.Native?
    ensures DeskNext(d, Act(t, s)).value.log.acted ==
      if s.None? || Retained(d, s.value, d.threads[t].id)
      then d.log.acted + [Acted(s, d.threads[t].id, d.core.clears)]
      else d.log.acted
  {}

  lemma RetainedIsCurrent(d: Desk, s: StateId, id: ControlId)
    requires DeskInv(d) && Retained(d, s, id)
    ensures s in d.log.observed && d.log.observed[s] == Observation(id, d.core.clears)
  {}

  /** An observation that was retained stays so until a step clears the table. */
  lemma RetainedStays(d: Desk, e: DeskEvent, s: StateId, id: ControlId)
    requires DeskInv(d) && DeskNext(d, e).Some? && Retained(d, s, id) && !Clears(d, e)
    ensures Retained(DeskNext(d, e).value, s, id)
  {
    hide TokenInOnePlace, OneStopper, OperationTracked, AuthorityKept, ActedOnce, ReleasedOnce, EpochsOrdered,
         ReleaseLogged;
  }

  lemma RetainedStep(es: seq<SystemEvent>, ss: seq<System>, k: nat, s: StateId, id: ControlId)
    requires IsRun(es, ss) && k < |es| && Retained(ss[k].desk, s, id) && !ClearedAt(es, ss, k)
    ensures Retained(ss[k + 1].desk, s, id)
  {
    hide DeskNext, Next, DeskInv, Clears;
    RunStep(es, ss, k);
    if es[k].OfDesk? {
      DeskStep(es, ss, k);
      RetainedStays(ss[k].desk, es[k].step, s, id);
    } else {
      OtherStepsKeepCore(ss[k], es[k]);
    }
  }

  lemma {:induction false} StandingIsRetained(es: seq<SystemEvent>, ss: seq<System>, i: nat, j: nat,
                                              s: StateId, id: ControlId)
    requires IsRun(es, ss) && j < |es| && ObservationStands(es, ss, i, j, s, id)
    ensures Retained(ss[j].desk, s, id)
    decreases j
  {
    hide DeskNext, Next, DeskInv, ClearedAt, Retained;
    if i == j - 1 {
      ObservingRetains(es, ss, i, s, id);
    } else {
      StandingIsRetained(es, ss, i, j - 1, s, id);
      RetainedStep(es, ss, j - 1, s, id);
    }
  }

  lemma ObservingRetains(es: seq<SystemEvent>, ss: seq<System>, i: nat, s: StateId, id: ControlId)
    requires IsRun(es, ss) && i < |es| && ObservedAt(es, ss, i, s, id)
    ensures Retained(ss[i + 1].desk, s, id)
  {
    hide Next, DeskInv;
    RunStep(es, ss, i);
    DeskStep(es, ss, i);
  }

  lemma ActingIsDecidedAt(es: seq<SystemEvent>, ss: seq<System>, j: nat, t: ThreadId, consumed: Option<StateId>)
    requires IsRun(es, ss) && j < |es| && es[j] == OfDesk(Act(t, consumed))
    ensures DeskInv(ss[j].desk) && t in ss[j].desk.threads && ss[j].desk.threads[t].Operating?
    ensures ss[j].desk.threads[t].use.Native?
    ensures ss[j + 1].desk.log.acted ==
      if consumed.None? || Retained(ss[j].desk, consumed.value, ss[j].desk.threads[t].id)
      then ss[j].desk.log.acted + [Acted(consumed, ss[j].desk.threads[t].id, ss[j].desk.core.clears)]
      else ss[j].desk.log.acted
  {
    hide DeskNext, Next, DeskInv;
    RunStep(es, ss, j);
    DeskStep(es, ss, j);
    ActingIsDecided(ss[j].desk, t, consumed);
  }

  lemma RetainedWasObserved(es: seq<SystemEvent>, ss: seq<System>, j: nat, s: StateId, id: ControlId) returns (i: nat)
    requires IsRun(es, ss) && j < |es| && Retained(ss[j].desk, s, id)
    ensures ObservationStands(es, ss, i, j, s, id)
  {
    hide DeskNext, Next, DeskInv, ClearedAt;
    RunStep(es, ss, j);
    RetainedIsCurrent(ss[j].desk, s, id);
    i := WasObserved(es, ss, j, s);
    forall k: nat | i < k < j
      ensures !ClearedAt(es, ss, k)
    {
      ClearsGrow(es, ss, i + 1, k);
      ClearsStep(es, ss, k);
      ClearsGrow(es, ss, k + 1, j);
    }
  }

  /** An action is passed to the backend exactly if it needs no observation, or the one
      that it names was recorded under the same control and no step since then has
      invalidated observations. */
  lemma ActionFollowsObservation(es: seq<SystemEvent>, ss: seq<System>, j: nat, t: ThreadId, consumed: Option<StateId>)
    requires IsRun(es, ss) && j < |es| && es[j] == OfDesk(Act(t, consumed))
    ensures t in ss[j].desk.threads && ss[j].desk.threads[t].Operating? && ss[j].desk.threads[t].use.Native?
    ensures
      var id := ss[j].desk.threads[t].id;
      var performed := consumed.None? || exists i: nat :: ObservationStands(es, ss, i, j, consumed.value, id);
      |ss[j + 1].desk.log.acted| == |ss[j].desk.log.acted| + if performed then 1 else 0
  {
    hide DeskNext, Next, DeskInv, ObservationStands, Retained;
    ActingIsDecidedAt(es, ss, j, t, consumed);
    var id := ss[j].desk.threads[t].id;
    if consumed.Some? {
      if Retained(ss[j].desk, consumed.value, id) {
        var i := RetainedWasObserved(es, ss, j, consumed.value, id);
      }
      if i: nat :| ObservationStands(es, ss, i, j, consumed.value, id) {
        StandingIsRetained(es, ss, i, j, consumed.value, id);
      }
    }
  }

  // A call ---------------------------------------------------------------------------------------

  lemma IsTargeted(b: Bridge, c: CallId)
    requires BridgeInv(b) && c in b.pending
    ensures c in b.targets
  {}

  lemma PendingIsTargeted(s: System, c: CallId)
    requires SystemInv(s) && c in s.bridge.pending
    ensures c in s.bridge.targets
  {
    hide DeskInv, Linked, BridgeInv;
    IsTargeted(s.bridge, c);
  }

  /** No call comes back. */
  lemma OldCallsOnly(s: System, e: SystemEvent, c: CallId)
    requires SystemInv(s) && Next(s, e).Some? && c in s.bridge.targets
    ensures c in Next(s, e).value.bridge.targets
    ensures c in Next(s, e).value.bridge.pending ==> c in s.bridge.pending
  {
    hide DeskInv, Linked, BridgeNext, DeskNext, ReleaseParked, SendsAfterConnect, DispatchedIffMarked, SentAtMostOnce,
         QueuesOk, MarkedOnce, CancelsOnce, GenerationsAgree, CurrentGeneration;
    if e.OfBridge? {
      BridgeStepKeepsReservations(s.bridge, e.section);
    }
  }

  lemma {:induction false} WasPending(es: seq<SystemEvent>, ss: seq<System>, i: nat, j: nat, c: CallId)
    requires IsRun(es, ss) && i <= j <= |es| && c in ss[i].bridge.targets
    ensures c in ss[j].bridge.targets
    ensures c in ss[j].bridge.pending ==> forall k :: i <= k <= j ==> c in ss[k].bridge.pending
    decreases j
  {
    hide SystemInv, Next;
    if i == j {
    } else {
      WasPending(es, ss, i, j - 1, c);
      EveryRunKeepsInvariant(es, ss, j - 1);
      assert Next(ss[j - 1], es[j - 1]) == Some(ss[j]);
      OldCallsOnly(ss[j - 1], es[j - 1], c);
    }
  }

  /** Both are the same call, for the same control. */
  predicate SameCall(p: PendingCall, q: PendingCall) {
    q.browser == p.browser && q.boot == p.boot && q.control == p.control
  }

  lemma CancelledIsSame(calls: Calls, id: CallId, sent: bool, c: CallId)
    requires id in calls && c in calls && c in CancelledCalls(calls, id, sent)
    ensures SameCall(calls[c], CancelledCalls(calls, id, sent)[c])
  {}

  lemma CancelKeepsCall(b: Bridge, id: CallId, c: CallId)
    requires id in b.pending && c in b.pending && c in CancelSection(b, id).pending
    ensures SameCall(b.pending[c], CancelSection(b, id).pending[c])
  {
    hide CancelTarget, CancelledCalls, PutControl, SameCall;
    var sent := CancelTarget(b, b.pending[id]).Some? || b.pending[id].cancelSent;
    CancelledIsSame(b.pending, id, sent, c);
  }

  lemma LeaveKeepsCall(b: Bridge, id: CallId, c: CallId)
    requires c in b.pending && c in LeaveSection(b, id).pending
    ensures SameCall(b.pending[c], LeaveSection(b, id).pending[c])
  {
    hide CancelSection;
    if id in b.pending {
      CancelKeepsCall(b.(pending := b.pending[id := Abandoned(b.pending[id])]), id, c);
    }
  }

  lemma DispatchKeepsCall(b: Bridge, r: StreamId, late: bool, c: CallId)
    requires c in b.pending && DispatchSection(b, r, late).Some? && c in DispatchSection(b, r, late).value.pending
    ensures SameCall(b.pending[c], DispatchSection(b, r, late).value.pending[c])
  {
    hide DropCommand, Serving, Dispatchable;
    var id := b.streams[r].commands[0];
    if id in b.pending && id != c {
      assert b.pending[id := b.pending[id].(dispatched := true)][c] == b.pending[c];
    }
  }

  lemma SectionKeepsCall(b: Bridge, e: BridgeEvent, c: CallId)
    requires BridgeNext(b, e).Some? && c in b.targets && c in b.pending && c in BridgeNext(b, e).value.pending
    ensures SameCall(b.pending[c], BridgeNext(b, e).value.pending[c])
  {
    hide DispatchSection, CancelSection, LeaveSection, PutCommand, DropControl;
    match e
    case Leave(id) => LeaveKeepsCall(b, id, c);
    case GateWatch(id) => CancelKeepsCall(b, id, c);
    case Dispatch(r, late) => DispatchKeepsCall(b, r, late, c);
    case _ =>
  }

  lemma ConnectedIsSame(calls: Calls, browser: BrowserId, oldBoot: BootId, boot: BootId, c: CallId)
    requires c in CallsAfterConnect(calls, browser, oldBoot, boot)
    ensures c in calls && SameCall(calls[c], CallsAfterConnect(calls, browser, oldBoot, boot)[c])
  {}

  lemma StepKeepsCall(s: System, e: SystemEvent, c: CallId)
    requires Next(s, e).Some? && c in s.bridge.targets
    requires c in s.bridge.pending && c in Next(s, e).value.bridge.pending
    ensures SameCall(s.bridge.pending[c], Next(s, e).value.bridge.pending[c])
  {
    hide DeskNext, ReleaseParked, SendsAfterConnect, CallsAfterConnect, BridgeNext;
    if e.OfBridge? {
      SectionKeepsCall(s.bridge, e.section, c);
    } else if e.Connect? && e.browser in s.bridge.instances {
      ConnectedIsSame(s.bridge.pending, e.browser, s.bridge.instances[e.browser].boot, e.boot, c);
    }
  }

  lemma {:induction false} RunKeepsCall(es: seq<SystemEvent>, ss: seq<System>, i: nat, j: nat, c: CallId)
    requires IsRun(es, ss) && i <= j <= |es| && c in ss[i].bridge.pending && c in ss[j].bridge.pending
    ensures SameCall(ss[i].bridge.pending[c], ss[j].bridge.pending[c])
    decreases j
  {
    hide SystemInv, Next;
    if i == j {
    } else {
      EveryRunKeepsInvariant(es, ss, i);
      PendingIsTargeted(ss[i], c);
      WasPending(es, ss, i, j, c);
      RunKeepsCall(es, ss, i, j - 1, c);
      EveryRunKeepsInvariant(es, ss, j - 1);
      PendingIsTargeted(ss[j - 1], c);
      assert Next(ss[j - 1], es[j - 1]) == Some(ss[j]);
      StepKeepsCall(ss[j - 1], es[j - 1], c);
    }
  }

  /** The step registered the call, by this browser and for this control. */
  ghost predicate RegisteredAt(es: seq<SystemEvent>, i: nat, c: CallId, browser: BrowserId, control: ControlId)
    requires i < |es|
  {
    && es[i].OfBridge? && es[i].section.Register? && es[i].section.id == c
    && es[i].section.browser == browser && es[i].section.control == control
  }

  lemma CancelAddsNoCall(b: Bridge, id: CallId)
    requires id in b.pending
    ensures CancelSection(b, id).pending.Keys <= b.pending.Keys
  {
    hide CancelTarget, PutControl;
  }

  lemma LeaveAddsNoCall(b: Bridge, id: CallId)
    ensures LeaveSection(b, id).pending.Keys <= b.pending.Keys
  {
    hide CancelSection;
    if id in b.pending {
      var calls := b.pending[id := Abandoned(b.pending[id])];
      CancelAddsNoCall(b.(pending := calls), id);
      assert calls.Keys == b.pending.Keys;
    }
  }

  lemma DispatchAddsNoCall(b: Bridge, r: StreamId, late: bool)
    requires DispatchSection(b, r, late).Some?
    ensures DispatchSection(b, r, late).value.pending.Keys <= b.pending.Keys
  {
    hide DropCommand, Serving, Dispatchable;
  }

  lemma SectionsAddNoCall(b: Bridge, e: BridgeEvent, c: CallId)
    requires BridgeNext(b, e).Some? && c !in b.pending && c in BridgeNext(b, e).value.pending
    ensures e.Register? && e.id == c
    ensures
      var p := BridgeNext(b, e).value.pending[c];
      p.browser == e.browser && p.control == e.control
  {
    hide CancelSection, LeaveSection, DispatchSection, PutCommand, DropControl;
    match e
    case Leave(id) => LeaveAddsNoCall(b, id);
    case GateWatch(id) => CancelAddsNoCall(b, id);
    case Dispatch(r, late) => DispatchAddsNoCall(b, r, late);
    case _ =>
  }

  lemma OnlyRegistrationAdds(s: System, e: SystemEvent, c: CallId)
    requires Next(s, e).Some? && c !in s.bridge.pending && c in Next(s, e).value.bridge.pending
    ensures e.OfBridge? && e.section.Register? && e.section.id == c
    ensures
      var p := Next(s, e).value.bridge.pending[c];
      p.browser == e.section.browser && p.control == e.section.control
  {
    hide DeskNext, ReleaseParked, SendsAfterConnect, BridgeNext;
    if e.OfBridge? {
      SectionsAddNoCall(s.bridge, e.section, c);
    }
  }

  /** A pending call was registered for the browser and the control that it has. */
  lemma {:induction false} WhoRegistered(es: seq<SystemEvent>, ss: seq<System>, j: nat, c: CallId) returns (i: nat)
    requires IsRun(es, ss) && j <= |es| && c in ss[j].bridge.pending
    ensures
      var p := ss[j].bridge.pending[c];
      i < j && RegisteredAt(es, i, c, p.browser, p.control)
    decreases j
  {
    hide SystemInv, Next;
    assert j > 0;
    assert Next(ss[j - 1], es[j - 1]) == Some(ss[j]);
    if c in ss[j - 1].bridge.pending {
      i := WhoRegistered(es, ss, j - 1, c);
      RunKeepsCall(es, ss, j - 1, j, c);
    } else {
      i := j - 1;
      OnlyRegistrationAdds(ss[i], es[i], c);
    }
  }

  // A reservation -----------------------------------------------------------------------------------

  /** The call that a thread asks the desktop for, or holds it for, and the control
      that it names. */
  function AsksFor(p: Phase): Option<(CallId, ControlId)> {
    match p
    case BeginChecking(id, Browser(c)) => Some((c, id))
    case BeginWaiting(id, Browser(c)) => Some((c, id))
    case BeginHolding(id, Browser(c)) => Some((c, id))
    case Invalidating(id, c) => Some((c, id))
    case Operating(id, Browser(c)) => Some((c, id))
    case Parked(id, c) => Some((c, id))
    case _ => None
  }

  /** The browser that runs the call asks for the desktop: the call was dispatched to
      this boot of it, is waited for, and neither holds nor asks for a reservation. */
  predicate Asked(b: Bridge, i: Identity, c: CallId, control: ControlId) {
    && i.call == c && c in b.pending
    && var p := b.pending[c];
       && p.dispatched && !p.abandoned && p.release.None? && !p.authorizing
       && p.browser == i.browser && p.boot == i.boot && p.control == control
  }

  lemma DeskAsksNothingNew(d: Desk, e: DeskEvent, t: ThreadId)
    requires DeskNext(d, e).Some? && t in DeskNext(d, e).value.threads
    requires AsksFor(DeskNext(d, e).value.threads[t]).Some?
    ensures t in d.threads && AsksFor(d.threads[t]) == AsksFor(DeskNext(d, e).value.threads[t])
  {
    hide ExpireSection, AdmitSection, AdmitFailedSection, ReleaseSection, LocalStopSection, FinishStopSection,
         BeginSection, EndSection, ObserveSection, ConsumeSection, CloseSection, ReleaseLogged;
  }

  lemma OnlyHandlersAsk(s: System, e: SystemEvent, t: ThreadId)
    requires Next(s, e).Some? && t in Next(s, e).value.desk.threads
    requires AsksFor(Next(s, e).value.desk.threads[t]).Some?
    ensures
      var what := AsksFor(Next(s, e).value.desk.threads[t]);
      || (t in s.desk.threads && AsksFor(s.desk.threads[t]) == what)
      || (e.AuthorizeStart? && e.t == t && Asked(s.bridge, e.identity, what.value.0, what.value.1))
  {
    hide DeskNext, BridgeNext, CallsAfterConnect, SendsAfterConnect, ReceiveSection;
    if e.OfDesk? {
      DeskAsksNothingNew(s.desk, e.step, t);
    }
  }

  lemma {:induction false} WhoAsked(es: seq<SystemEvent>, ss: seq<System>, j: nat, t: ThreadId) returns (i: nat)
    requires IsRun(es, ss) && j <= |es| && t in ss[j].desk.threads && AsksFor(ss[j].desk.threads[t]).Some?
    ensures i < j && es[i].AuthorizeStart? && es[i].t == t
    ensures
      var what := AsksFor(ss[j].desk.threads[t]).value;
      Asked(ss[i].bridge, es[i].identity, what.0, what.1)
    decreases j
  {
    hide SystemInv, Next, Asked, AsksFor;
    assert j > 0;
    assert Next(ss[j - 1], es[j - 1]) == Some(ss[j]);
    OnlyHandlersAsk(ss[j - 1], es[j - 1], t);
    if t in ss[j - 1].desk.threads && AsksFor(ss[j - 1].desk.threads[t]) == AsksFor(ss[j].desk.threads[t]) {
      i := WhoAsked(es, ss, j - 1, t);
    } else {
      i := j - 1;
    }
  }

  /** The reservation that a call holds is for the control that the call was made with,
      and was asked for by the boot of the browser that runs it, while the call was
      dispatched and waited for. */
  lemma ReservationIsForItsCall(es: seq<SystemEvent>, ss: seq<System>, j: nat, c: CallId)
    requires IsRun(es, ss) && j <= |es| && Stores(ss[j], c)
    ensures
      var p := ss[j].bridge.pending[c];
      && p.release.value in ss[j].desk.threads
      && ss[j].desk.threads[p.release.value] == Parked(p.control, c)
      && (exists h: nat :: h < j && RegisteredAt(es, h, c, p.browser, p.control))
      && exists i: nat ::
        && i < j && es[i] == AuthorizeStart(p.release.value, Identity(c, p.browser, p.boot))
        && c in ss[i].bridge.pending && ss[i].bridge.pending[c].dispatched && !ss[i].bridge.pending[c].abandoned
  {
    hide SystemInv, Next;
    EveryRunKeepsInvariant(es, ss, j);
    LinkedOf(ss[j]);
    StoredIsParked(ss[j], c);
    var i := WhoAsked(es, ss, j, ss[j].bridge.pending[c].release.value);
    RunKeepsCall(es, ss, i, j, c);
    var h := WhoRegistered(es, ss, j, c);
  }
}
