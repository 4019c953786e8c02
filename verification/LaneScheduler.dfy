/** The browser extension's command scheduler
    (browser-extension/src/scheduler.ts): bounded first-in first-out lanes that
    share a fixed number of execution slots. Its methods run without interruption
    between two turns of the event loop, so each is one atomic step. */
module LaneScheduler {
  import opened Basics

  type JobId = int
  type Lane = int
  type Serial = int

  /** A job is an object: `serial` is its identity, since identifiers are reused. */
  datatype Job = Job(id: JobId, lane: Lane, serial: Serial)

  type Lanes = map<Lane, seq<Job>>
  type Running = map<Lane, Job>
  type Jobs = map<JobId, Job>

  /** The promise chain that `pump` hangs on a job it starts. */
  datatype Stage = Scheduled | Executing | Refused | Completed

  /** History: what became of the entries of `ready`, in the order in which they
      were taken. */
  datatype Turn = Started(lane: Lane, job: Job) | Busy(lane: Lane) | Empty(lane: Lane)

  /** What `pump` changes. `pushed` is the history of everything that was put
      into `ready`. */
  datatype Slots = Slots(
    lanes: Lanes,
    running: Running,
    ready: seq<Lane>,
    active: int,
    stage: map<Serial, Stage>,
    turns: seq<Turn>,
    pushed: seq<Lane>)

  /** The scheduler and the history of its jobs: those accepted, those whose
      signal is aborted, those cancelled before they were started; how often
      each was settled and how often executed. */
  datatype Sched = Sched(
    slots: Slots,
    jobs: Jobs,
    accepted: seq<Job>,
    aborted: set<Serial>,
    dropped: set<Serial>,
    settled: multiset<Serial>,
    executed: multiset<Serial>)

  const Idle := Slots(map[], map[], [], 0, map[], [], [])
  const InitialSched := Sched(Idle, map[], [], {}, {}, multiset{}, multiset{})

  function Queue(lanes: Lanes, lane: Lane): seq<Job> {
    if lane in lanes then lanes[lane] else []
  }

  predicate Runs(running: Running, job: Job) { job.lane in running && running[job.lane] == job }

  /** `queue.filter(item => item !== job)` */
  function Without(queue: seq<Job>, job: Job): (q: seq<Job>)
    ensures forall x :: x in q <==> x in queue && x != job
  {
    if queue == [] then []
    else (if queue[0] == job then [] else [queue[0]]) + Without(queue[1..], job)
  }

  // pump ----------------------------------------------------------------------------

  function Push(s: Slots, lane: Lane): Slots {
    s.(ready := s.ready + [lane], pushed := s.pushed + [lane])
  }

  /** One turn of the loop in `pump`. */
  function PumpOnce(s: Slots): Slots
    requires s.ready != []
  {
    var lane := s.ready[0];
    var s' := s.(ready := s.ready[1..]);
    if lane in s.running then s'.(turns := s.turns + [Busy(lane)])
    else if Queue(s.lanes, lane) == [] then s'.(lanes := s.lanes - {lane}, turns := s.turns + [Empty(lane)])
    else
      var job := s.lanes[lane][0];
      s'.(lanes := s.lanes[lane := s.lanes[lane][1..]],
          running := s.running[lane := job],
          active := s.active + 1,
          stage := s.stage[job.serial := Scheduled],
          turns := s.turns + [Started(lane, job)])
  }

  function Pump(concurrency: int, s: Slots): Slots
    decreases |s.ready|
  {
    if s.active < concurrency && s.ready != [] then Pump(concurrency, PumpOnce(s)) else s
  }

  // finish --------------------------------------------------------------------------

  /** What `finish` does to the lanes before it pumps. */
  function Vacate(s: Slots, job: Job): Slots {
    var s' := if Runs(s.running, job) then s.(running := s.running - {job.lane}, active := s.active - 1) else s;
    if Queue(s'.lanes, job.lane) == [] then s'.(lanes := s'.lanes - {job.lane})
    else if job.lane in s'.ready then s'
    else Push(s', job.lane)
  }

  function Finish(concurrency: int, s: Sched, job: Job): Sched {
    if job.id !in s.jobs then s
    else s.(jobs := s.jobs - {job.id},
            slots := Pump(concurrency, Vacate(s.slots, job)),
            settled := s.settled + multiset{job.serial})
  }

  // The promise chain ------------------------------------------------------------------

  /** The first link of the promise chain: `throwIfAborted`, then `execute`. */
  function Begin(s: Sched, job: Job): Option<Sched> {
    if job !in s.accepted || job.serial !in s.slots.stage || !s.slots.stage[job.serial].Scheduled? then None
    else if job.serial in s.aborted
    then Some(s.(slots := s.slots.(stage := s.slots.stage[job.serial := Refused])))
    else Some(s.(slots := s.slots.(stage := s.slots.stage[job.serial := Executing]),
                 executed := s.executed + multiset{job.serial}))
  }

  /** The second link: the execution has ended, or was refused. */
  function End(concurrency: int, s: Sched, job: Job): Option<Sched> {
    if job !in s.accepted || job.serial !in s.slots.stage then None
    else if s.slots.stage[job.serial].Scheduled? || s.slots.stage[job.serial].Completed? then None
    else Some(Finish(concurrency, s.(slots := s.slots.(stage := s.slots.stage[job.serial := Completed])), job))
  }

  // submit and cancel -----------------------------------------------------------------

  function Enqueue(s: Slots, job: Job): Slots {
    var s' := s.(lanes := s.lanes[job.lane := Queue(s.lanes, job.lane) + [job]]);
    if job.lane in s.running || job.lane in s.ready then s' else Push(s', job.lane)
  }

  datatype Refusal = Duplicate | AtCapacity | Expired

  function SubmitRefusal(capacity: int, jobs: Jobs, id: JobId, expired: bool): Option<Refusal> {
    if id in jobs then Some(Duplicate)
    else if |jobs| >= capacity then Some(AtCapacity)
    else if expired then Some(Expired)
    else None
  }

  function Submit(concurrency: int, capacity: int, s: Sched, id: JobId, lane: Lane, expired: bool): Sched {
    if SubmitRefusal(capacity, s.jobs, id, expired).Some? then s
    else
      var job := Job(id, lane, |s.accepted|);
      s.(jobs := s.jobs[id := job],
         accepted := s.accepted + [job],
         slots := Pump(concurrency, Enqueue(s.slots, job)))
  }

  function Unqueued(s: Slots, job: Job): Slots {
    if job.lane in s.lanes then s.(lanes := s.lanes[job.lane := Without(s.lanes[job.lane], job)]) else s
  }

  /** `cancel`, also when the deadline of a job passes. */
  function Cancel(concurrency: int, s: Sched, id: JobId): Sched {
    if id !in s.jobs then s
    else
      var job := s.jobs[id];
      var s' := s.(aborted := s.aborted + {job.serial});
      if Runs(s.slots.running, job) then s'
      else
        var f := Finish(concurrency, s'.(slots := Unqueued(s.slots, job), dropped := s.dropped + {job.serial}), job);
        f.(slots := Pump(concurrency, f.slots))
  }

  function CancelEach(concurrency: int, s: Sched, ids: seq<JobId>): Sched {
    if ids == [] then s else Cancel(concurrency, CancelEach(concurrency, s, ids[..|ids| - 1]), ids[|ids| - 1])
  }

  // The object --------------------------------------------------------------------------

  class Scheduler {
    const concurrency: int
    const capacity: int
    var lanes: Lanes
    var running: Running
    var jobs: Jobs
    var ready: seq<Lane>
    var active: int
    var aborted: set<Serial>
    var created: int
    ghost var history: Sched

    /** The state of the object; the history only contributes what the fields do
        not hold. */
    ghost function View(): Sched
      reads this
    {
      history.(slots := history.slots.(lanes := lanes, running := running, ready := ready, active := active),
               jobs := jobs, aborted := aborted)
    }

    ghost predicate Valid()
      reads this
    {
      created == |history.accepted|
    }

    constructor (concurrency: int, capacity: int)
      ensures Valid() && View() == InitialSched
      ensures this.concurrency == concurrency && this.capacity == capacity
    {
      this.concurrency, this.capacity := concurrency, capacity;
      lanes, running, jobs, ready, active, aborted, created := map[], map[], map[], [], 0, {}, 0;
      history := InitialSched;
    }

    method PutReady(lane: Lane)
      requires Valid()
      modifies this
      ensures Valid() && View() == old(View().(slots := Push(View().slots, lane)))
    {
      ready := ready + [lane];
      history := history.(slots := Push(history.slots, lane));
    }

    method PumpLanes()
      requires Valid()
      modifies this
      ensures Valid() && View() == old(View()).(slots := Pump(concurrency, old(View()).slots))
    {
      while active < concurrency && ready != []
        invariant Valid()
        invariant View() == old(View()).(slots := View().slots)
        invariant Pump(concurrency, View().slots) == Pump(concurrency, old(View()).slots)
        decreases |ready|
      {
        ghost var before := View().slots;
        var lane := ready[0];
        ready := ready[1..];
        if lane in running {
          history := history.(slots := history.slots.(turns := history.slots.turns + [Busy(lane)]));
        } else if lane !in lanes || lanes[lane] == [] {
          lanes := lanes - {lane};
          history := history.(slots := history.slots.(turns := history.slots.turns + [Empty(lane)]));
        } else {
          var job := lanes[lane][0];
          lanes := lanes[lane := lanes[lane][1..]];
          running := running[lane := job];
          active := active + 1;
          history := history.(slots := history.slots.(stage := history.slots.stage[job.serial := Scheduled],
                                                      turns := history.slots.turns + [Started(lane, job)]));
        }
        assert View().slots == PumpOnce(before);
      }
    }

    method FinishJob(job: Job)
      requires Valid()
      modifies this
      ensures Valid() && View() == Finish(concurrency, old(View()), job)
    {
      hide Pump;
      if job.id !in jobs {
        return;
      }
      jobs := jobs - {job.id};
      if job.lane in running && running[job.lane] == job {
        running := running - {job.lane};
        active := active - 1;
      }
      if job.lane in lanes && lanes[job.lane] != [] {
        if job.lane !in ready {
          PutReady(job.lane);
        }
      } else {
        lanes := lanes - {job.lane};
      }
      assert View().slots == Vacate(old(View()).slots, job);
      history := history.(settled := history.settled + multiset{job.serial});
      PumpLanes();
    }

    method BeginJob(job: Job) returns (execute: bool)
      requires Valid() && Begin(View(), job).Some?
      modifies this
      ensures Valid() && View() == Begin(old(View()), job).value
      ensures execute == (job.serial !in old(aborted))
    {
      execute := job.serial !in aborted;
      var stage := if execute then Executing else Refused;
      history := history.(slots := history.slots.(stage := history.slots.stage[job.serial := stage]),
                          executed := if execute then history.executed + multiset{job.serial} else history.executed);
    }

    method EndJob(job: Job)
      requires Valid() && End(concurrency, View(), job).Some?
      modifies this
      ensures Valid() && View() == End(concurrency, old(View()), job).value
    {
      hide Finish;
      history := history.(slots := history.slots.(stage := history.slots.stage[job.serial := Completed]));
      FinishJob(job);
    }

    method SubmitJob(id: JobId, lane: Lane, expired: bool) returns (refusal: Option<Refusal>)
      requires Valid()
      modifies this
      ensures Valid() && View() == Submit(concurrency, capacity, old(View()), id, lane, expired)
      ensures refusal == SubmitRefusal(capacity, old(jobs), id, expired)
    {
      hide Pump;
      if id in jobs {
        return Some(Duplicate);
      }
      if |jobs| >= capacity {
        return Some(AtCapacity);
      }
      if expired {
        return Some(Expired);
      }
      var job := Job(id, lane, created);
      created := created + 1;
      jobs := jobs[id := job];
      history := history.(accepted := history.accepted + [job]);
      if lane !in lanes {
        lanes := lanes[lane := []];
      }
      lanes := lanes[lane := lanes[lane] + [job]];
      assert lanes == old(lanes)[lane := Queue(old(lanes), lane) + [job]];
      if lane !in running && lane !in ready {
        PutReady(lane);
      }
      assert View().slots == Enqueue(old(View()).slots, job);
      PumpLanes();
      refusal := None;
    }

    method RemoveFrom(queue: seq<Job>, job: Job) returns (kept: seq<Job>)
      ensures kept == Without(queue, job)
    {
      kept := [];
      for i := 0 to |queue|
        invariant kept + Without(queue[i..], job) == Without(queue, job)
      {
        ghost var rest := Without(queue[i + 1..], job);
        assert queue[i..][1..] == queue[i + 1..];
        if queue[i] != job {
          SeqAssociates(kept, [queue[i]], rest);
          kept := kept + [queue[i]];
        } else {
          SeqAssociates(kept, [], rest);
        }
      }
    }

    method CancelJob(id: JobId) returns (known: bool)
      requires Valid()
      modifies this
      ensures Valid() && View() == Cancel(concurrency, old(View()), id)
      ensures known == (id in old(jobs))
    {
      if id !in jobs {
        return false;
      }
      var job := jobs[id];
      aborted := aborted + {job.serial};
      known := true;
      if job.lane in running && running[job.lane] == job {
        return;
      }
      if job.lane in lanes {
        var kept := RemoveFrom(lanes[job.lane], job);
        lanes := lanes[job.lane := kept];
      }
      history := history.(dropped := history.dropped + {job.serial});
      FinishJob(job);
      PumpLanes();
    }

    /** `order` is the order in which the snapshot of the identifiers is swept. */
    method CancelAll() returns (ghost order: seq<JobId>)
      requires Valid()
      modifies this
      ensures Valid() && View() == CancelEach(concurrency, old(View()), order)
      ensures forall id :: id in order <==> id in old(jobs)
    {
      var left := jobs.Keys;
      order := [];
      while left != {}
        invariant Valid() && View() == CancelEach(concurrency, old(View()), order)
        invariant forall id :: id in old(jobs) <==> id in order || id in left
        decreases |left|
      {
        var id := Pick(left);
        left := left - {id};
        var _ := CancelJob(id);
        assert (order + [id])[..|order|] == order;
        order := order + [id];
      }
    }
  }
}
