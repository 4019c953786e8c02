/** The desktop coordinator (internal/computer/coordinator.go): every section of
    code that runs under the coordinator's mutex, as a function on its fields, and
    the class whose methods are those sections. */
module Coordination {
  import opened Basics

  type ControlId = int  // NO_CONTROL stands for the empty string
  type StateId = int
  type ThreadId = int

  const NO_CONTROL: ControlId := 0
  const IDLE_TIMEOUT := 300  // seconds
  const MAX_STATES := 64

  datatype Status = Free | Owned | Stopping

  /** The mutable fields of the coordinator. `operation` names the thread whose
      context `operationCancel` cancels; `cancelled` is the set of threads whose
      context is cancelled; `clears` counts the times `states` has been emptied. */
  datatype Core = Core(
    status: Status,
    id: ControlId,
    expires: int,
    operation: Option<ThreadId>,
    cancelled: set<ThreadId>,
    states: map<StateId, ControlId>,
    closed: bool,
    clears: nat)
  {
    function Cleared(): Core {
      this.(states := map[], clears := clears + 1)
    }

    function OperationCancelled(): Core {
      if operation.Some? then this.(cancelled := cancelled + {operation.value}) else this
    }

    /** What Release, LocalStop and Close do to an ownership. */
    function Stopped(): Core {
      Cleared().OperationCancelled().(status := Stopping, id := NO_CONTROL)
    }

    predicate Admits(id: ControlId, borrow: bool) {
      && !closed
      && ((borrow && id == NO_CONTROL && status == Free)
          || (id != NO_CONTROL && status == Owned && id == this.id))
    }
  }

  const InitialCore := Core(Free, NO_CONTROL, 0, None, {}, map[], false, 0)

  /** `expire`: the idle owner loses the desktop unless an operation is running. */
  function ExpireSection(c: Core, now: int): (Core, bool) {
    if c.status == Owned && c.operation.None? && now >= c.expires
    then (c.Cleared().(status := Stopping, id := NO_CONTROL), true)
    else (c, false)
  }

  /** `Control("acquire")` once it holds the gate. No identifier means the random
      source failed. */
  function AdmitSection(c: Core, newId: Option<ControlId>, now: int): (Core, bool) {
    if c.closed || c.status != Free || newId.None?
    then (c, false)
    else (c.(status := Owned, id := newId.value, expires := now + IDLE_TIMEOUT), true)
  }

  /** `ShowControl` failed: the status is written without looking at it. */
  function AdmitFailedSection(c: Core, cleaned: bool): Core {
    c.(status := if cleaned then Free else Stopping, id := NO_CONTROL)
  }

  function ReleaseSection(c: Core, id: ControlId): (Core, bool) {
    if id == NO_CONTROL || c.status != Owned || id != c.id
    then (c, false)
    else (c.Stopped(), true)
  }

  function LocalStopSection(c: Core): (Core, bool) {
    if c.status != Owned then (c, false) else (c.Stopped(), true)
  }

  /** The last section of `finishStop`, entered with the gate in hand. */
  function FinishStopSection(c: Core): Core {
    (if c.closed then c else c.(status := Free)).Cleared().(operation := None)
  }

  function BeginSection(c: Core, t: ThreadId, id: ControlId, borrow: bool, now: int): (Core, bool) {
    if !c.Admits(id, borrow) then (c, false)
    else
      var c' := c.(operation := Some(t));
      (if id != NO_CONTROL then c'.(expires := now + IDLE_TIMEOUT) else c', true)
  }

  function EndSection(c: Core, t: ThreadId, id: ControlId, now: int): Core {
    var c' := c.(operation := None, cancelled := c.cancelled + {t});
    if id != NO_CONTROL && c.status == Owned && id == c.id
    then c'.(expires := now + IDLE_TIMEOUT)
    else c'
  }

  /** `State` stores an observation, emptying a full table first. */
  function ObserveSection(c: Core, id: ControlId, s: StateId): (Core, bool) {
    if c.status != Owned || c.id != id then (c, false)
    else
      var c' := if |c.states| >= MAX_STATES then c.Cleared() else c;
      (c'.(states := c'.states[s := id]), true)
  }

  /** `Act` validates an action; `activate` needs no observation. */
  function ConsumeSection(c: Core, id: ControlId, s: Option<StateId>): (Core, bool) {
    if s.None? || (s.value in c.states && c.states[s.value] == id)
    then (c.Cleared(), true)
    else (c, false)
  }

  function CloseSection(c: Core): Core {
    if c.closed then c else c.Stopped().(closed := true)
  }

  /** The coordinator as an object: one method per mutex-protected section. */
  class Coordinator {
    var status: Status
    var id: ControlId
    var expires: int
    var operation: Option<ThreadId>
    var states: map<StateId, ControlId>
    var closed: bool
    ghost var cancelled: set<ThreadId>
    ghost var clears: nat

    ghost function View(): Core
      reads this
    {
      Core(status, id, expires, operation, cancelled, states, closed, clears)
    }

    constructor ()
      ensures View() == InitialCore
    {
      status, id, expires, operation := Free, NO_CONTROL, 0, None;
      states, closed, cancelled, clears := map[], false, {}, 0;
    }

    method ClearStates()
      modifies this`states, this`clears
      ensures View() == old(View()).Cleared()
    {
      states := map[];
      clears := clears + 1;
    }

    method CancelOperation()
      modifies this`cancelled
      ensures View() == old(View()).OperationCancelled()
    {
      if operation.Some? {
        cancelled := cancelled + {operation.value};
      }
    }

    method Expire(now: int) returns (should: bool)
      modifies this
      ensures (View(), should) == ExpireSection(old(View()), now)
    {
      should := status == Owned && operation.None? && now >= expires;
      if should {
        status, id := Stopping, NO_CONTROL;
        ClearStates();
      }
    }

    method Admit(newId: Option<ControlId>, now: int) returns (ok: bool)
      modifies this
      ensures (View(), ok) == AdmitSection(old(View()), newId, now)
    {
      if closed || status != Free {
        return false;
      }
      if newId.None? {
        return false;
      }
      status, id := Owned, newId.value;
      expires := now + IDLE_TIMEOUT;
      ok := true;
    }

    method AdmitFailed(cleaned: bool)
      modifies this
      ensures View() == AdmitFailedSection(old(View()), cleaned)
    {
      status, id := Free, NO_CONTROL;
      if !cleaned {
        status := Stopping;
      }
    }

    method Release(control: ControlId) returns (ok: bool)
      modifies this
      ensures (View(), ok) == ReleaseSection(old(View()), control)
    {
      if control == NO_CONTROL || status != Owned || control != id {
        return false;
      }
      status, id := Stopping, NO_CONTROL;
      ClearStates();
      CancelOperation();
      ok := true;
    }

    method LocalStop() returns (ok: bool)
      modifies this
      ensures (View(), ok) == LocalStopSection(old(View()))
    {
      if status != Owned {
        return false;
      }
      status, id := Stopping, NO_CONTROL;
      ClearStates();
      CancelOperation();
      ok := true;
    }

    method FinishStop()
      modifies this
      ensures View() == FinishStopSection(old(View()))
    {
      if !closed {
        status := Free;
      }
      operation := None;
      ClearStates();
    }

    method Begin(t: ThreadId, control: ControlId, borrow: bool, now: int) returns (ok: bool)
      modifies this
      ensures (View(), ok) == BeginSection(old(View()), t, control, borrow, now)
    {
      ok := !closed && ((borrow && control == NO_CONTROL && status == Free)
                        || (control != NO_CONTROL && status == Owned && control == id));
      if !ok {
        return;
      }
      operation := Some(t);
      if control != NO_CONTROL {
        expires := now + IDLE_TIMEOUT;
      }
    }

    method End(t: ThreadId, control: ControlId, now: int) returns (stopping: bool)
      modifies this
      ensures View() == EndSection(old(View()), t, control, now)
      ensures stopping == (status == Stopping && !closed)
    {
      cancelled := cancelled + {t};
      operation := None;
      if control != NO_CONTROL && status == Owned && control == id {
        expires := now + IDLE_TIMEOUT;
      }
      stopping := status == Stopping && !closed;
    }

    method Observe(control: ControlId, s: StateId) returns (ok: bool)
      modifies this
      ensures (View(), ok) == ObserveSection(old(View()), control, s)
    {
      if status != Owned || id != control {
        return false;
      }
      if |states| >= MAX_STATES {
        ClearStates();
      }
      states := states[s := control];
      ok := true;
    }

    method Consume(control: ControlId, s: Option<StateId>) returns (valid: bool)
      modifies this
      ensures (View(), valid) == ConsumeSection(old(View()), control, s)
    {
      valid := s.None? || (s.value in states && states[s.value] == control);
      if valid {
        ClearStates();
      }
    }

    method Close() returns (first: bool)
      modifies this
      ensures View() == CloseSection(old(View()))
      ensures first == !old(closed)
    {
      if closed {
        return false;
      }
      closed := true;
      status, id := Stopping, NO_CONTROL;
      ClearStates();
      CancelOperation();
      first := true;
    }
  }
}
