/** The promises of the lane scheduler, over every run. */
module LaneTheorems {
  import opened Basics
  import opened LaneScheduler
  import opened LaneSafety

  // Slots and lanes -------------------------------------------------------------------

  predicate Waits(s: Sched, job: Job) { job in Queue(s.slots.lanes, job.lane) }

  predicate InTable(s: Sched, job: Job) { job.id in s.jobs && s.jobs[job.id] == job }

  /** `active` counts the running lanes and stays within the limit; the table is
      the disjoint union of the running and the waiting jobs, and bounded; an idle
      lane with waiting jobs is ready; and while a slot is free none is idle. */
  lemma SlotsAreUsed(c: int, capacity: int, es: seq<Event>)
    requires Run(c, capacity, es).Some?
    ensures
      var s := Run(c, capacity, es).value;
      && s.slots.active == |s.slots.running.Keys| <= Max(0, c)
      && |s.jobs.Keys| <= Max(0, capacity)
      && (forall job :: InTable(s, job) <==> Runs(s.slots.running, job) || Waits(s, job))
      && (forall job :: !(Runs(s.slots.running, job) && Waits(s, job)))
      && (forall l :: Queue(s.slots.lanes, l) != [] && l !in s.slots.running ==> l in s.slots.ready)
      && (s.slots.active < c ==> forall l :: Queue(s.slots.lanes, l) != [] ==> l in s.slots.running)
  {
    EveryRunKeepsInv(c, capacity, es);
    var s := Run(c, capacity, es).value;
    forall job
      ensures InTable(s, job) <==> Runs(s.slots.running, job) || Waits(s, job)
      ensures !(Runs(s.slots.running, job) && Waits(s, job))
    {
      WaitingIsTabled(s.slots.lanes, s.slots.running, s.jobs, job);
    }
  }

  lemma WaitingIsTabled(lanes: Lanes, running: Running, jobs: Jobs, job: Job)
    requires Placed(lanes, running, jobs)
    ensures job in Queue(lanes, job.lane) ==> job.id in jobs && jobs[job.id] == job && !Runs(running, job)
    ensures Runs(running, job) ==> job.id in jobs && jobs[job.id] == job
  {
    if job.lane in lanes {
      assert QueueOk(job.lane, lanes[job.lane], running, jobs);
    }
  }

  /** Per lane, the jobs that were submitted, without those cancelled before
      they started, are those that have started followed by those that wait, in
      the order of their submission. */
  lemma LanesAreFirstInFirstOut(c: int, capacity: int, es: seq<Event>, lane: Lane)
    requires Run(c, capacity, es).Some?
    ensures
      var s := Run(c, capacity, es).value;
      Kept(s.accepted, lane, s.dropped) == Starts(s.slots.turns, lane) + Queue(s.slots.lanes, lane)
  {
    EveryRunKeepsInv(c, capacity, es);
  }

  // Settling and executing ----------------------------------------------------------------

  /** Every accepted job settles once: it has been settled exactly if it has
      left the table. It executes at most once, and never if it was cancelled
      while it waited. */
  lemma JobsSettleOnce(c: int, capacity: int, es: seq<Event>, job: Job)
    requires Run(c, capacity, es).Some? && job in Run(c, capacity, es).value.accepted
    ensures
      var s := Run(c, capacity, es).value;
      && s.settled[job.serial] == (if InTable(s, job) then 0 else 1)
      && s.executed[job.serial] <= 1
      && (job.serial in s.dropped ==> s.executed[job.serial] == 0)
      && (s.executed[job.serial] == 1 && InTable(s, job) ==> Runs(s.slots.running, job))
  {
    EveryRunKeepsInv(c, capacity, es);
    var s := Run(c, capacity, es).value;
    if InTable(s, job) && !Runs(s.slots.running, job) {
      WaitingHasNoChain(c, capacity, s, job);
    }
  }

  lemma WaitingHasNoChain(c: int, capacity: int, s: Sched, job: Job)
    requires Inv(c, capacity, s) && InTable(s, job) && !Runs(s.slots.running, job)
    ensures job.serial !in s.slots.stage
  {
    WaitsInItsLane(s.slots, s.jobs, s.dropped, job);
  }

  /** The completion of a chain always finds its job running, so `finish` never
      returns without settling it. */
  lemma CompletionIsNeverStale(c: int, capacity: int, es: seq<Event>, job: Job)
    requires Run(c, capacity, es).Some? && End(c, Run(c, capacity, es).value, job).Some?
    ensures
      var s := Run(c, capacity, es).value;
      Runs(s.slots.running, job) && InTable(s, job)
      && End(c, s, job).value.settled[job.serial] == 1 && !InTable(End(c, s, job).value, job)
  {
    EveryRunKeepsInv(c, capacity, es);
    ChainEndIsRunning(c, capacity, Run(c, capacity, es).value, job);
  }

  ghost predicate NoMoreExecuted(s: Sched, s': Sched, i: Serial) {
    i in s'.aborted && s'.executed[i] == s.executed[i]
  }

  lemma {:induction false} CancelEachExecutesNothing(c: int, s: Sched, ids: seq<JobId>)
    ensures CancelEach(c, s, ids).executed == s.executed && s.aborted <= CancelEach(c, s, ids).aborted
  {
    hide Pump;
    if ids == [] {
    } else {
      CancelEachExecutesNothing(c, s, ids[..|ids| - 1]);
    }
  }

  /** A job whose signal is aborted before `execute` is called is not executed. */
  lemma {:induction false} AbortedIsNotExecuted(c: int, capacity: int, s: Sched, es: seq<Event>, i: Serial)
    requires i in s.aborted && RunFrom(c, capacity, s, es).Some?
    ensures NoMoreExecuted(s, RunFrom(c, capacity, s, es).value, i)
  {
    hide Pump;
    if es == [] {
    } else {
      AbortedIsNotExecuted(c, capacity, s, es[..|es| - 1], i);
      if es[|es| - 1].AllCancelled? {
        CancelEachExecutesNothing(c, RunFrom(c, capacity, s, es[..|es| - 1]).value, es[|es| - 1].order);
      }
    }
  }

  // cancelAll -------------------------------------------------------------------------------

  /** Cancelling frees no slot, so it starts nothing. */
  lemma CancelStartsNothing(c: int, capacity: int, s: Sched, id: JobId)
    requires Inv(c, capacity, s) && Quiet(c, s.slots)
    ensures Cancel(c, s, id).slots.running == s.slots.running
  {
    TableFacts(c, capacity, s, id);
    if id in s.jobs && !Runs(s.slots.running, s.jobs[id]) {
      var job := s.jobs[id];
      CancelOfWaiting(c, s, id);
      VacatedStartsNothing(c, s.slots, job);
    }
  }

  lemma VacatedStartsNothing(c: int, s: Slots, job: Job)
    requires Awake(s.lanes, s.running, s.ready) && Quiet(c, s) && !Runs(s.running, job)
    ensures
      var slots := Pump(c, Vacate(Unqueued(s, job), job));
      Pump(c, slots) == slots && slots.running == s.running
  {
    var u := Unqueued(s, job);
    var v := Vacate(u, job);
    if s.active < c {
      if v.ready != [] {
        assert v.ready == [job.lane] && Queue(u.lanes, job.lane) != [];
        assert Queue(s.lanes, job.lane) != [];
        assert Pump(c, v) == Pump(c, PumpOnce(v));
      }
    }
  }

  /** Each identifier swept so far names a job that is gone or is running with
      its signal aborted. */
  ghost predicate Swept(s: Sched, s': Sched, ids: seq<JobId>) {
    && s'.slots.running == s.slots.running
    && (forall id :: id in s'.jobs ==> id in s.jobs && s'.jobs[id] == s.jobs[id])
    && (forall id :: id in ids && id in s'.jobs ==>
          Runs(s.slots.running, s.jobs[id]) && s.jobs[id].serial in s'.aborted)
  }

  lemma CancelSweeps(c: int, capacity: int, s: Sched, s': Sched, ids: seq<JobId>, id: JobId)
    requires Swept(s, s', ids) && Inv(c, capacity, s') && Quiet(c, s'.slots)
    ensures Swept(s, Cancel(c, s', id), ids + [id])
  {
    CancelStartsNothing(c, capacity, s', id);
    TableFacts(c, capacity, s', id);
    if id in s'.jobs && !Runs(s'.slots.running, s'.jobs[id]) {
      CancelOfWaiting(c, s', id);
    }
  }

  lemma {:induction false} CancelEachSweeps(c: int, capacity: int, s: Sched, ids: seq<JobId>)
    requires Inv(c, capacity, s) && Quiet(c, s.slots)
    ensures Swept(s, CancelEach(c, s, ids), ids)
  {
    hide Inv, Quiet, Cancel;
    if ids == [] {
    } else {
      var n := |ids| - 1;
      CancelEachSweeps(c, capacity, s, ids[..n]);
      CancelEachKeepsInv(c, capacity, s, ids[..n]);
      CancelSweeps(c, capacity, s, CancelEach(c, s, ids[..n]), ids[..n], ids[n]);
      assert ids[..n] + [ids[n]] == ids;
    }
  }

  /** After `cancelAll` nothing waits, what is left is running with its signal
      aborted, and the sweep has started nothing. */
  lemma CancelAllLeavesOnlyAborted(c: int, capacity: int, es: seq<Event>, order: seq<JobId>)
    requires Run(c, capacity, es).Some? && Next(c, capacity, Run(c, capacity, es).value, AllCancelled(order)).Some?
    ensures
      var s := Run(c, capacity, es).value;
      var s' := Next(c, capacity, s, AllCancelled(order)).value;
      && (forall l :: Queue(s'.slots.lanes, l) == [])
      && (forall id :: id in s'.jobs ==> Runs(s'.slots.running, s'.jobs[id]) && s'.jobs[id].serial in s'.aborted)
      && s'.slots.running == s.slots.running
  {
    hide Run, CancelEach, Quiet, Known, Placed, Counted, Awake, TurnsInOrder, InOrder, ChainsRun, ChainsStarted, LogInv;
    EveryRunKeepsInv(c, capacity, es);
    var s := Run(c, capacity, es).value;
    var s' := CancelEach(c, s, order);
    CancelEachSweeps(c, capacity, s, order);
    CancelEachKeepsInv(c, capacity, s, order);
    assert forall id :: id in s'.jobs ==> id in (set id | id in order);
    forall l
      ensures Queue(s'.slots.lanes, l) == []
    {
      if Queue(s'.slots.lanes, l) != [] {
        WaitingIsNotRunning(s'.slots.lanes, s'.slots.running, s'.jobs, l);
      }
    }
  }

  lemma WaitingIsNotRunning(lanes: Lanes, running: Running, jobs: Jobs, l: Lane)
    requires Placed(lanes, running, jobs) && Queue(lanes, l) != []
    ensures exists id :: id in jobs && !Runs(running, jobs[id])
  {
    var job := lanes[l][0];
    assert QueueOk(l, lanes[l], running, jobs) && job in lanes[l];
    assert job.id in jobs && !Runs(running, jobs[job.id]);
  }

  // Turns --------------------------------------------------------------------------------------

  /** The lane does not run and still has to take turn `n`, with the job waiting
      in it unless it was dropped. */
  ghost predicate Awaits(s: Slots, lane: Lane, n: nat, job: Job, dropped: set<Serial>) {
    && |s.turns| <= n < |s.pushed| && s.pushed[n] == lane && lane !in s.running
    && (job in Queue(s.lanes, lane) || job.serial in dropped)
  }

  /** The lane has taken turn `n`, and started a job unless the job was dropped. */
  ghost predicate HadTurn(s: Slots, lane: Lane, n: nat, job: Job, dropped: set<Serial>) {
    && n < |s.turns| && s.turns[n].lane == lane
    && (s.turns[n].Started? || (s.turns[n].Empty? && job.serial in dropped))
  }

  /** Turn `n` belongs to the lane; `pushed` is what had been pushed before. */
  ghost predicate Turns(s: Slots, lane: Lane, n: nat, job: Job, dropped: set<Serial>, pushed: seq<Lane>) {
    pushed <= s.pushed && (Awaits(s, lane, n, job, dropped) || HadTurn(s, lane, n, job, dropped))
  }

  lemma TurnIsTaken(s: Slots, lane: Lane, n: nat, job: Job, dropped: set<Serial>, pushed: seq<Lane>)
    requires s.ready != [] && TurnsInOrder(s.ready, s.turns, s.pushed) && NoDuplicates(s.ready)
    requires Turns(s, lane, n, job, dropped, pushed)
    ensures Turns(PumpOnce(s), lane, n, job, dropped, pushed)
  {
    if Awaits(s, lane, n, job, dropped) {
      assert s.ready[n - |s.turns|] == lane;
    }
  }

  lemma {:induction false} PumpTakesTurns(c: int, s: Slots, jobs: Jobs, accepted: seq<Job>, dropped: set<Serial>,
                                          lane: Lane, n: nat, job: Job, pushed: seq<Lane>)
    requires SlotsInv(c, s, jobs, accepted, dropped) && Turns(s, lane, n, job, dropped, pushed)
    ensures Turns(Pump(c, s), lane, n, job, dropped, pushed)
    decreases |s.ready|
  {
    hide Turns;
    if s.active >= c || s.ready == [] {
    } else {
      TurnIsTaken(s, lane, n, job, dropped, pushed);
      TurnKeepsInv(c, s, jobs, accepted, dropped);
      PumpTakesTurns(c, PumpOnce(s), jobs, accepted, dropped, lane, n, job, pushed);
    }
  }

  lemma ChangesKeepTurns(s: Slots, other: Job, lane: Lane, n: nat, job: Job, dropped: set<Serial>, pushed: seq<Lane>)
    requires Turns(s, lane, n, job, dropped, pushed)
    ensures Turns(Enqueue(s, other), lane, n, job, dropped, pushed)
    ensures Turns(Vacate(s, other), lane, n, job, dropped, pushed)
    ensures Turns(Unqueued(s, other), lane, n, job, dropped + {other.serial}, pushed)
  {}

  lemma SubmitKeepsTurns(c: int, capacity: int, s: Sched, id: JobId, l: Lane, expired: bool,
                         lane: Lane, n: nat, job: Job, pushed: seq<Lane>)
    requires Inv(c, capacity, s) && Turns(s.slots, lane, n, job, s.dropped, pushed)
    ensures Turns(Submit(c, capacity, s, id, l, expired).slots, lane, n, job, s.dropped, pushed)
  {
    hide Turns, LogInv, Enqueue, SlotsInv, Pump;
    if SubmitRefusal(capacity, s.jobs, id, expired).None? {
      var other := Job(id, l, |s.accepted|);
      SubmitKeepsLog(capacity, s, other, s.slots);
      EnqueueKeepsInv(c, s.slots, s.jobs, s.accepted, s.dropped, other);
      ChangesKeepTurns(s.slots, other, lane, n, job, s.dropped, pushed);
      PumpTakesTurns(c, Enqueue(s.slots, other), s.jobs[id := other], s.accepted + [other], s.dropped,
                     lane, n, job, pushed);
    }
  }

  lemma CancelKeepsTurns(c: int, capacity: int, s: Sched, id: JobId, lane: Lane, n: nat, job: Job, pushed: seq<Lane>)
    requires Inv(c, capacity, s) && Quiet(c, s.slots) && Turns(s.slots, lane, n, job, s.dropped, pushed)
    ensures Turns(Cancel(c, s, id).slots, lane, n, job, Cancel(c, s, id).dropped, pushed)
  {
    hide Turns, LogInv, SlotsInv, Pump, Vacate, Unqueued, Quiet;
    TableFacts(c, capacity, s, id);
    if id in s.jobs && !Runs(s.slots.running, s.jobs[id]) {
      var other := s.jobs[id];
      var u := Unqueued(s.slots, other);
      var dropped := s.dropped + {other.serial};
      CancelOfWaiting(c, s, id);
      AwakeAndQuiet(c, capacity, s);
      VacatedStartsNothing(c, s.slots, other);
      DropKeepsInv(c, s.slots, s.jobs, s.accepted, s.dropped, other);
      ChangesKeepTurns(s.slots, other, lane, n, job, s.dropped, pushed);
      ChangesKeepTurns(u, other, lane, n, job, dropped, pushed);
      PumpTakesTurns(c, Vacate(u, other), s.jobs - {id}, s.accepted, dropped, lane, n, job, pushed);
    }
  }

  lemma AwakeAndQuiet(c: int, capacity: int, s: Sched)
    requires Inv(c, capacity, s)
    ensures Awake(s.slots.lanes, s.slots.running, s.slots.ready)
  {}

  lemma {:induction false} CancelEachKeepsTurns(c: int, capacity: int, s: Sched, ids: seq<JobId>,
                                                lane: Lane, n: nat, job: Job, pushed: seq<Lane>)
    requires Inv(c, capacity, s) && Quiet(c, s.slots) && Turns(s.slots, lane, n, job, s.dropped, pushed)
    ensures Turns(CancelEach(c, s, ids).slots, lane, n, job, CancelEach(c, s, ids).dropped, pushed)
  {
    hide Turns, Inv, Quiet, Cancel;
    if ids == [] {
    } else {
      var rest := ids[..|ids| - 1];
      CancelEachKeepsTurns(c, capacity, s, rest, lane, n, job, pushed);
      CancelEachKeepsInv(c, capacity, s, rest);
      CancelKeepsTurns(c, capacity, CancelEach(c, s, rest), ids[|ids| - 1], lane, n, job, pushed);
    }
  }

  lemma EndKeepsTurns(c: int, capacity: int, s: Sched, other: Job, lane: Lane, n: nat, job: Job, pushed: seq<Lane>)
    requires Inv(c, capacity, s) && End(c, s, other).Some? && Turns(s.slots, lane, n, job, s.dropped, pushed)
    ensures Turns(End(c, s, other).value.slots, lane, n, job, s.dropped, pushed)
  {
    hide LogInv, SlotsInv, Pump, Vacate, Runs;
    var u := s.slots.(stage := s.slots.stage[other.serial := Completed]);
    assert Turns(u, lane, n, job, s.dropped, pushed);
    ChainEndIsRunning(c, capacity, s, other);
    TableFacts(c, capacity, s, other.id);
    LeaveKeepsInv(c, s.slots, s.jobs, s.accepted, s.dropped, other);
    ChangesKeepTurns(u, other, lane, n, job, s.dropped, pushed);
    PumpTakesTurns(c, Vacate(u, other), s.jobs - {other.id}, s.accepted, s.dropped, lane, n, job, pushed);
  }

  lemma StepKeepsTurns(c: int, capacity: int, s: Sched, e: Event, lane: Lane, n: nat, job: Job, pushed: seq<Lane>)
    requires Inv(c, capacity, s) && Quiet(c, s.slots) && Turns(s.slots, lane, n, job, s.dropped, pushed)
    requires Next(c, capacity, s, e).Some?
    ensures
      var s' := Next(c, capacity, s, e).value;
      Turns(s'.slots, lane, n, job, s'.dropped, pushed)
  {
    hide Inv, Quiet, Cancel, CancelEach, Pump;
    match e
    case Submitted(id, l, expired) => SubmitKeepsTurns(c, capacity, s, id, l, expired, lane, n, job, pushed);
    case Cancelled(id) => CancelKeepsTurns(c, capacity, s, id, lane, n, job, pushed);
    case AllCancelled(order) => CancelEachKeepsTurns(c, capacity, s, order, lane, n, job, pushed);
    case Begun(_) =>
    case Ended(other) => EndKeepsTurns(c, capacity, s, other, lane, n, job, pushed);
  }

  lemma {:induction false} RunKeepsTurns(c: int, capacity: int, s: Sched, es: seq<Event>,
                                         lane: Lane, n: nat, job: Job, pushed: seq<Lane>)
    requires Inv(c, capacity, s) && Quiet(c, s.slots) && Turns(s.slots, lane, n, job, s.dropped, pushed)
    requires RunFrom(c, capacity, s, es).Some?
    ensures
      var s' := RunFrom(c, capacity, s, es).value;
      Turns(s'.slots, lane, n, job, s'.dropped, pushed)
  {
    hide Turns, Inv, Quiet, Next;
    if es == [] {
    } else {
      var rest := es[..|es| - 1];
      RunKeepsTurns(c, capacity, s, rest, lane, n, job, pushed);
      RunKeepsInv(c, capacity, s, rest);
      StepKeepsTurns(c, capacity, RunFrom(c, capacity, s, rest).value, es[|es| - 1], lane, n, job, pushed);
    }
  }

  /** A job waits in an idle lane with `k` lanes ahead of it in `ready`. Whatever
      happens next: the turns taken first are those of the lanes ahead, in order;
      until they are over the lane waits on; and its own turn starts a job of the
      lane, unless the waiting job was cancelled. */
  lemma NoLaneIsOvertaken(c: int, capacity: int, es: seq<Event>, more: seq<Event>, k: nat, job: Job)
    requires Run(c, capacity, es).Some? && RunFrom(c, capacity, Run(c, capacity, es).value, more).Some?
    requires
      var s := Run(c, capacity, es).value.slots;
      k < |s.ready| && s.ready[k] == job.lane && job.lane !in s.running && job in Queue(s.lanes, job.lane)
    ensures
      var s := Run(c, capacity, es).value.slots;
      var s' := RunFrom(c, capacity, Run(c, capacity, es).value, more).value.slots;
      var dropped := RunFrom(c, capacity, Run(c, capacity, es).value, more).value.dropped;
      var n := |s.turns| + k;
      && (forall i :: |s.turns| <= i <= n && i < |s'.turns| ==> s'.turns[i].lane == s.ready[i - |s.turns|])
      && (|s'.turns| <= n ==>
            job.lane !in s'.running && n - |s'.turns| < |s'.ready| && s'.ready[n - |s'.turns|] == job.lane)
      && (n < |s'.turns| ==> s'.turns[n].Started? || (s'.turns[n].Empty? && job.serial in dropped))
  {
    hide Pump, Next, Placed, InOrder, ChainsRun, ChainsStarted, LogInv, Known;
    EveryRunKeepsInv(c, capacity, es);
    var before := Run(c, capacity, es).value;
    var s := before.slots;
    var n := |s.turns| + k;
    assert Awaits(s, job.lane, n, job, before.dropped);
    RunKeepsTurns(c, capacity, before, more, job.lane, n, job, s.pushed);
    RunKeepsInv(c, capacity, before, more);
    TurnsFollowPushes(s, RunFrom(c, capacity, before, more).value.slots);
  }

  lemma TurnsFollowPushes(s: Slots, s': Slots)
    requires TurnsInOrder(s.ready, s.turns, s.pushed) && TurnsInOrder(s'.ready, s'.turns, s'.pushed)
    requires s.pushed <= s'.pushed
    ensures forall i :: |s.turns| <= i < |s.pushed| && i < |s'.turns| ==> s'.turns[i].lane == s.ready[i - |s.turns|]
  {}
}
