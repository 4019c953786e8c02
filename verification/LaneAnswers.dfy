/** What each request to the lane scheduler does, told from the jobs that run or
    wait. */
module LaneAnswers {
  import opened Basics
  import opened LaneScheduler
  import opened LaneSafety
  import opened LaneTheorems

  /** The jobs that run or wait. */
  function AtWork(s: Slots): set<Job> {
    (set l | l in s.running :: s.running[l])
    + (set l, k | l in s.lanes && 0 <= k < |s.lanes[l]| :: s.lanes[l][k])
  }

  /** A job that runs or waits has this identifier. */
  ghost predicate Present(s: Slots, id: JobId) { exists job :: job in AtWork(s) && job.id == id }

  lemma {:induction false} SameCount(jobs: Jobs, work: set<Job>)
    requires forall id :: id in jobs ==> jobs[id].id == id && jobs[id] in work
    requires forall job :: job in work ==> job.id in jobs && jobs[job.id] == job
    ensures |work| == |jobs|
    decreases |work|
  {
    if work == {} {
      assert forall id :: id !in jobs;
    } else {
      var job := SomeElement(work);
      var rest := jobs - {job.id};
      SameCount(rest, work - {job});
      assert rest.Keys == jobs.Keys - {job.id} && |rest| == |rest.Keys| && |jobs| == |jobs.Keys|;
    }
  }

  lemma WorkIsTabled(lanes: Lanes, running: Running, jobs: Jobs, s: Slots)
    requires Placed(lanes, running, jobs) && s.lanes == lanes && s.running == running
    ensures forall job :: job in AtWork(s) <==> job.id in jobs && jobs[job.id] == job
    ensures forall id :: id in jobs ==> jobs[id].id == id
  {
    forall job
      ensures job in AtWork(s) <==> job.id in jobs && jobs[job.id] == job
    {
      WaitingIsTabled(lanes, running, jobs, job);
      if l, k :| l in lanes && 0 <= k < |lanes[l]| && lanes[l][k] == job {
        assert QueueOk(l, lanes[l], running, jobs) && job in lanes[l];
      }
      assert Runs(running, job) ==> job in AtWork(s);
    }
  }

  /** The table holds exactly the jobs at work. */
  lemma TableIsWork(c: int, capacity: int, s: Sched)
    requires Inv(c, capacity, s)
    ensures forall job :: job in AtWork(s.slots) <==> job.id in s.jobs && s.jobs[job.id] == job
    ensures forall id :: id in s.jobs <==> Present(s.slots, id)
    ensures forall id :: id in s.jobs ==> s.jobs[id].id == id && s.jobs[id] in AtWork(s.slots)
    ensures |AtWork(s.slots)| == |s.jobs|
  {
    hide AtWork;
    WorkIsTabled(s.slots.lanes, s.slots.running, s.jobs, s.slots);
    SameCount(s.jobs, AtWork(s.slots));
  }

  lemma RunFacts(c: int, capacity: int, es: seq<Event>, e: Event) returns (s: Sched)
    requires Run(c, capacity, es).Some? && Next(c, capacity, Run(c, capacity, es).value, e).Some?
    ensures s == Run(c, capacity, es).value && Inv(c, capacity, s) && Quiet(c, s.slots)
    ensures Inv(c, capacity, Next(c, capacity, s, e).value)
  {
    hide Inv, Quiet, Next;
    EveryRunKeepsInv(c, capacity, es);
    s := Run(c, capacity, es).value;
    StepKeepsInv(c, capacity, s, e);
  }

  /** A submission is accepted exactly if no job at work has its identifier, fewer
      than `capacity` jobs are at work, and it has not expired. Then one job is at
      work in addition, in the lane that was named; otherwise nothing changes. */
  lemma SubmissionsAreDecidedExactly(c: int, capacity: int, es: seq<Event>, id: JobId, lane: Lane, expired: bool)
    requires Run(c, capacity, es).Some?
    ensures
      var s := Run(c, capacity, es).value;
      var s' := Next(c, capacity, s, Submitted(id, lane, expired)).value;
      var job := Job(id, lane, |s.accepted|);
      if !Present(s.slots, id) && |AtWork(s.slots)| < capacity && !expired
      then
        && s'.accepted == s.accepted + [job]
        && AtWork(s'.slots) == AtWork(s.slots) + {job} && job !in AtWork(s.slots)
        && s'.settled == s.settled && s'.executed == s.executed && s'.aborted == s.aborted && s'.dropped == s.dropped
      else s' == s
  {
    hide Inv, Quiet, Run, Pump, AtWork;
    var s := RunFacts(c, capacity, es, Submitted(id, lane, expired));
    var s' := Next(c, capacity, s, Submitted(id, lane, expired)).value;
    TableIsWork(c, capacity, s);
    TableIsWork(c, capacity, s');
    if s' != s {
      assert forall job :: job in AtWork(s'.slots) <==> job in AtWork(s.slots) + {Job(id, lane, |s.accepted|)};
    }
  }

  /** The reason of a refusal: a duplicate first, then capacity, then the deadline. */
  lemma RefusalsAreExplained(c: int, capacity: int, es: seq<Event>, id: JobId, expired: bool)
    requires Run(c, capacity, es).Some?
    ensures
      var s := Run(c, capacity, es).value;
      var refusal := SubmitRefusal(capacity, s.jobs, id, expired);
      && (refusal == Some(Duplicate) <==> Present(s.slots, id))
      && (refusal == Some(AtCapacity) <==> !Present(s.slots, id) && |AtWork(s.slots)| >= capacity)
      && (refusal == Some(Expired) <==> !Present(s.slots, id) && |AtWork(s.slots)| < capacity && expired)
  {
    hide Inv, Quiet, Run, AtWork, Present;
    EveryRunKeepsInv(c, capacity, es);
    TableIsWork(c, capacity, Run(c, capacity, es).value);
  }

  /** Cancelling aborts the signal of the job with that identifier. If the job waits
      it is settled and leaves at once; if it runs nothing else happens; if there is
      no such job nothing happens at all. */
  lemma CancellationsActExactly(c: int, capacity: int, es: seq<Event>, job: Job)
    requires Run(c, capacity, es).Some?
    ensures
      var s := Run(c, capacity, es).value;
      var s' := Next(c, capacity, s, Cancelled(job.id)).value;
      && s'.accepted == s.accepted && s'.executed == s.executed
      && (!Present(s.slots, job.id) ==> s' == s)
      && (job in AtWork(s.slots) ==>
            && s'.aborted == s.aborted + {job.serial}
            && if Runs(s.slots.running, job) then s' == s.(aborted := s.aborted + {job.serial})
               else
                 && AtWork(s'.slots) == AtWork(s.slots) - {job}
                 && s'.settled == s.settled + multiset{job.serial} && s'.dropped == s.dropped + {job.serial})
  {
    hide Inv, Quiet, Run, Pump, AtWork, Vacate, Unqueued;
    var s := RunFacts(c, capacity, es, Cancelled(job.id));
    var s' := Next(c, capacity, s, Cancelled(job.id)).value;
    TableIsWork(c, capacity, s);
    TableIsWork(c, capacity, s');
    if job in AtWork(s.slots) && !Runs(s.slots.running, job) {
      CancelOfWaiting(c, s, job.id);
      assert forall j :: j in AtWork(s'.slots) <==> j in AtWork(s.slots) - {job};
    }
  }

  /** A running job has one promise chain, which is either about to call `execute` or
      about to end, and no other job has one. The first link calls `execute` unless
      the signal is aborted; the second settles the job, which leaves. */
  lemma ChainsActExactly(c: int, capacity: int, es: seq<Event>, job: Job)
    requires Run(c, capacity, es).Some?
    ensures
      var s := Run(c, capacity, es).value;
      var begun, ended := Next(c, capacity, s, Begun(job)), Next(c, capacity, s, Ended(job));
      && (begun.Some? || ended.Some? <==> Runs(s.slots.running, job))
      && !(begun.Some? && ended.Some?)
      && (begun.Some? ==>
            && begun.value.executed ==
                 (if job.serial in s.aborted then s.executed else s.executed + multiset{job.serial})
            && AtWork(begun.value.slots) == AtWork(s.slots) && begun.value.settled == s.settled
            && Next(c, capacity, begun.value, Ended(job)).Some?)
      && (ended.Some? ==>
            && AtWork(ended.value.slots) == AtWork(s.slots) - {job}
            && ended.value.settled == s.settled + multiset{job.serial} && ended.value.executed == s.executed)
  {
    hide Run, Pump, AtWork, Inv, Quiet, Vacate;
    EveryRunKeepsInv(c, capacity, es);
    var s := Run(c, capacity, es).value;
    RunningIsChained(c, capacity, s, job);
    TableIsWork(c, capacity, s);
    if Begin(s, job).Some? {
      assert AtWork(Begin(s, job).value.slots) == AtWork(s.slots) by {
        SameWork(s.slots, Begin(s, job).value.slots);
      }
    }
    if End(c, s, job).Some? {
      ChainEndIsRunning(c, capacity, s, job);
      EndKeepsInv(c, capacity, s, job);
      var s' := End(c, s, job).value;
      TableIsWork(c, capacity, s');
      assert forall j :: j in AtWork(s'.slots) <==> j in AtWork(s.slots) - {job};
    }
  }

  lemma SameWork(s: Slots, s': Slots)
    requires s'.lanes == s.lanes && s'.running == s.running
    ensures AtWork(s') == AtWork(s)
  {}

  lemma RunningIsChained(c: int, capacity: int, s: Sched, job: Job)
    requires Inv(c, capacity, s)
    ensures Runs(s.slots.running, job) <==>
      && job in s.accepted && job.serial in s.slots.stage && !s.slots.stage[job.serial].Completed?
  {
    hide Counted, Awake, TurnsInOrder, InOrder, ChainsStarted, SettledOnce, ExecutedOnce;
  }
}
