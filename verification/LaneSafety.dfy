/** What every turn of the scheduler's event loop keeps. */
module LaneSafety {
  import opened Basics
  import opened LaneScheduler

  // Runs --------------------------------------------------------------------------

  datatype Event =
    | Submitted(id: JobId, lane: Lane, expired: bool)
    | Cancelled(id: JobId)
    | AllCancelled(order: seq<JobId>)
    | Begun(job: Job)
    | Ended(job: Job)

  function Next(concurrency: int, capacity: int, s: Sched, e: Event): Option<Sched> {
    match e
    case Submitted(id, lane, expired) => Some(Submit(concurrency, capacity, s, id, lane, expired))
    case Cancelled(id) => Some(Cancel(concurrency, s, id))
    case AllCancelled(order) =>
      if (set id | id in order) == s.jobs.Keys then Some(CancelEach(concurrency, s, order)) else None
    case Begun(job) => Begin(s, job)
    case Ended(job) => End(concurrency, s, job)
  }

  /** The state that a run reaches from `s`, None if some event cannot happen. */
  function RunFrom(concurrency: int, capacity: int, s: Sched, es: seq<Event>): Option<Sched> {
    if es == [] then Some(s)
    else match RunFrom(concurrency, capacity, s, es[..|es| - 1])
      case None => None
      case Some(before) => Next(concurrency, capacity, before, es[|es| - 1])
  }

  function Run(concurrency: int, capacity: int, es: seq<Event>): Option<Sched> {
    RunFrom(concurrency, capacity, InitialSched, es)
  }

  // The invariant -------------------------------------------------------------------

  ghost predicate QueueOk(l: Lane, queue: seq<Job>, running: Running, jobs: Jobs) {
    && NoDuplicates(queue)
    && forall j :: j in queue ==> j.lane == l && j.id in jobs && jobs[j.id] == j && !Runs(running, j)
  }

  ghost predicate RunningOk(running: Running, jobs: Jobs) {
    forall l :: l in running ==> running[l].lane == l && running[l].id in jobs && jobs[running[l].id] == running[l]
  }

  ghost predicate JobsOk(lanes: Lanes, running: Running, jobs: Jobs) {
    forall id :: id in jobs ==>
      jobs[id].id == id && (Runs(running, jobs[id]) || jobs[id] in Queue(lanes, jobs[id].lane))
  }

  /** `jobs` is the disjoint union of the running and the queued jobs. */
  ghost predicate Placed(lanes: Lanes, running: Running, jobs: Jobs) {
    && RunningOk(running, jobs)
    && (forall l :: l in lanes ==> QueueOk(l, lanes[l], running, jobs))
    && JobsOk(lanes, running, jobs)
  }

  ghost predicate Counted(concurrency: int, running: Running, active: int) {
    active == |running.Keys| && active <= Max(0, concurrency)
  }

  /** No wakeup is lost: an idle lane with waiting jobs is in `ready`. */
  ghost predicate Awake(lanes: Lanes, running: Running, ready: seq<Lane>) {
    && NoDuplicates(ready)
    && forall l :: Queue(lanes, l) != [] && l !in running ==> l in ready
  }

  /** `ready` is what was pushed and has not had its turn. */
  ghost predicate TurnsInOrder(ready: seq<Lane>, turns: seq<Turn>, pushed: seq<Lane>) {
    && |turns| <= |pushed| && ready == pushed[|turns|..]
    && forall i :: 0 <= i < |turns| ==> turns[i].lane == pushed[i]
  }

  /** The jobs of a lane that were not dropped, in the order of their submission. */
  function Kept(accepted: seq<Job>, lane: Lane, dropped: set<Serial>): seq<Job> {
    if accepted == [] then []
    else
      var job := accepted[|accepted| - 1];
      Kept(accepted[..|accepted| - 1], lane, dropped)
      + if job.lane == lane && job.serial !in dropped then [job] else []
  }

  /** The jobs of a lane that were started, in the order of their start. */
  function Starts(turns: seq<Turn>, lane: Lane): seq<Job> {
    if turns == [] then []
    else
      var turn := turns[|turns| - 1];
      Starts(turns[..|turns| - 1], lane) + if turn.Started? && turn.lane == lane then [turn.job] else []
  }

  /** Per lane, jobs start in submission order; only dropped jobs are skipped. */
  ghost predicate InOrder(accepted: seq<Job>, dropped: set<Serial>, turns: seq<Turn>, lanes: Lanes) {
    forall l :: Kept(accepted, l, dropped) == Starts(turns, l) + Queue(lanes, l)
  }

  ghost predicate Numbered(accepted: seq<Job>) {
    forall i :: 0 <= i < |accepted| ==> accepted[i].serial == i
  }

  /** The promise chains in progress are those of the running jobs. */
  ghost predicate ChainsRun(running: Running, stage: map<Serial, Stage>, accepted: seq<Job>) {
    && (forall i :: i in stage ==> 0 <= i < |accepted|)
    && (forall l :: l in running ==> running[l].serial in stage && !stage[running[l].serial].Completed?)
    && (forall i :: i in stage && !stage[i].Completed? ==> Runs(running, accepted[i]))
  }

  ghost predicate ChainsStarted(stage: map<Serial, Stage>, turns: seq<Turn>, lanes: Lanes, dropped: set<Serial>) {
    && (forall i :: 0 <= i < |turns| && turns[i].Started? ==> turns[i].job.serial in stage)
    && (forall l, j :: l in lanes && j in lanes[l] ==> j.serial !in stage)
    && dropped !! stage.Keys
  }

  ghost predicate SlotsInv(concurrency: int, s: Slots, jobs: Jobs, accepted: seq<Job>, dropped: set<Serial>) {
    && Known(jobs, accepted, dropped)
    && Placed(s.lanes, s.running, jobs)
    && Counted(concurrency, s.running, s.active)
    && Awake(s.lanes, s.running, s.ready)
    && TurnsInOrder(s.ready, s.turns, s.pushed)
    && InOrder(accepted, dropped, s.turns, s.lanes)
    && ChainsRun(s.running, s.stage, accepted)
    && ChainsStarted(s.stage, s.turns, s.lanes, dropped)
  }

  ghost predicate Known(jobs: Jobs, accepted: seq<Job>, dropped: set<Serial>) {
    forall id :: id in jobs ==>
      && 0 <= jobs[id].serial < |accepted| && accepted[jobs[id].serial] == jobs[id]
      && jobs[id].serial !in dropped
  }

  /** Every accepted job is in `jobs` or has been settled, once. */
  ghost predicate SettledOnce(jobs: Jobs, accepted: seq<Job>, settled: multiset<Serial>) {
    && (forall i :: settled[i] > 0 ==> 0 <= i < |accepted|)
    && (forall i :: 0 <= i < |accepted| ==>
          var j := accepted[i];
          settled[i] == if j.id in jobs && jobs[j.id] == j then 0 else 1)
  }

  /** A job is executed at most once, and then its chain got that far. */
  ghost predicate ExecutedOnce(executed: multiset<Serial>, stage: map<Serial, Stage>) {
    forall i :: executed[i] <= 1 && (executed[i] == 1 ==> i in stage && (stage[i].Executing? || stage[i].Completed?))
  }

  ghost predicate LogInv(capacity: int, s: Sched) {
    && Numbered(s.accepted)
    && |s.jobs.Keys| <= Max(0, capacity)
    && SettledOnce(s.jobs, s.accepted, s.settled)
    && ExecutedOnce(s.executed, s.slots.stage)
    && (forall i :: i in s.dropped ==> 0 <= i < |s.accepted|)
  }

  ghost predicate Inv(concurrency: int, capacity: int, s: Sched) {
    SlotsInv(concurrency, s.slots, s.jobs, s.accepted, s.dropped) && LogInv(capacity, s)
  }

  /** A free slot means that no lane is ready. */
  ghost predicate Quiet(concurrency: int, s: Slots) {
    s.active >= concurrency || s.ready == []
  }

  // pump ---------------------------------------------------------------------------------

  lemma StartsNext(turns: seq<Turn>, turn: Turn, l: Lane)
    ensures Starts(turns + [turn], l) == Starts(turns, l) + if turn.Started? && turn.lane == l then [turn.job] else []
  {
    assert (turns + [turn])[..|turns|] == turns;
  }

  lemma StartKeepsOrder(accepted: seq<Job>, dropped: set<Serial>, turns: seq<Turn>, lanes: Lanes, lane: Lane)
    requires InOrder(accepted, dropped, turns, lanes) && lane in lanes && lanes[lane] != []
    ensures InOrder(accepted, dropped, turns + [Started(lane, lanes[lane][0])], lanes[lane := lanes[lane][1..]])
  {
    var turns' := turns + [Started(lane, lanes[lane][0])];
    var lanes' := lanes[lane := lanes[lane][1..]];
    forall l
      ensures Kept(accepted, l, dropped) == Starts(turns', l) + Queue(lanes', l)
    {
      StartsNext(turns, Started(lane, lanes[lane][0]), l);
    }
  }

  lemma NoStartKeepsOrder(accepted: seq<Job>, dropped: set<Serial>, turns: seq<Turn>, turn: Turn,
                          lanes: Lanes, lanes': Lanes)
    requires InOrder(accepted, dropped, turns, lanes) && !turn.Started?
    requires forall l :: Queue(lanes, l) == Queue(lanes', l)
    ensures InOrder(accepted, dropped, turns + [turn], lanes')
  {
    forall l
      ensures Kept(accepted, l, dropped) == Starts(turns + [turn], l) + Queue(lanes', l)
    {
      StartsNext(turns, turn, l);
    }
  }

  lemma StartKeepsPlaces(lanes: Lanes, running: Running, jobs: Jobs, lane: Lane)
    requires Placed(lanes, running, jobs) && lane in lanes && lanes[lane] != [] && lane !in running
    ensures Placed(lanes[lane := lanes[lane][1..]], running[lane := lanes[lane][0]], jobs)
  {
    var lanes', running' := lanes[lane := lanes[lane][1..]], running[lane := lanes[lane][0]];
    forall l | l in lanes'
      ensures QueueOk(l, lanes'[l], running', jobs)
    {
      assert QueueOk(l, lanes[l], running, jobs);
    }
    assert lanes[lane] == [lanes[lane][0]] + lanes'[lane];
  }

  lemma ForgettingKeepsPlaces(lanes: Lanes, running: Running, jobs: Jobs, lane: Lane)
    requires Placed(lanes, running, jobs) && Queue(lanes, lane) == []
    ensures Placed(lanes - {lane}, running, jobs)
    ensures forall l :: Queue(lanes - {lane}, l) == Queue(lanes, l)
  {}

  lemma StartKeepsChains(lanes: Lanes, running: Running, jobs: Jobs, stage: map<Serial, Stage>, turns: seq<Turn>,
                         accepted: seq<Job>, dropped: set<Serial>, lane: Lane)
    requires Placed(lanes, running, jobs) && Known(jobs, accepted, dropped)
    requires ChainsRun(running, stage, accepted) && ChainsStarted(stage, turns, lanes, dropped)
    requires lane in lanes && lanes[lane] != [] && lane !in running
    ensures ChainsRun(running[lane := lanes[lane][0]], stage[lanes[lane][0].serial := Scheduled], accepted)
    ensures ChainsStarted(stage[lanes[lane][0].serial := Scheduled], turns + [Started(lane, lanes[lane][0])],
                          lanes[lane := lanes[lane][1..]], dropped)
  {
    assert QueueOk(lane, lanes[lane], running, jobs);
    var job := lanes[lane][0];
    var lanes' := lanes[lane := lanes[lane][1..]];
    forall l | l in lanes'
      ensures forall j: Job :: j in lanes'[l] ==> j.serial !in stage && j.serial != job.serial
    {
      assert QueueOk(l, lanes[l], running, jobs);
    }
  }

  lemma NoStartKeepsChains(stage: map<Serial, Stage>, turns: seq<Turn>, turn: Turn, lanes: Lanes, lane: Lane,
                           dropped: set<Serial>)
    requires ChainsStarted(stage, turns, lanes, dropped) && !turn.Started?
    ensures ChainsStarted(stage, turns + [turn], lanes, dropped)
    ensures ChainsStarted(stage, turns + [turn], lanes - {lane}, dropped)
  {}

  /** The lane at the front of `ready` runs now or has nothing to run. */
  lemma TurnKeepsAwake(lanes: Lanes, running: Running, ready: seq<Lane>, lanes': Lanes, running': Running)
    requires Awake(lanes, running, ready) && ready != [] && running.Keys <= running'.Keys
    requires forall l :: l != ready[0] ==> Queue(lanes', l) == Queue(lanes, l)
    requires ready[0] in running' || Queue(lanes', ready[0]) == []
    ensures Awake(lanes', running', ready[1..])
  {
    assert ready == [ready[0]] + ready[1..];
  }

  lemma TurnTaken(ready: seq<Lane>, turns: seq<Turn>, pushed: seq<Lane>, turn: Turn)
    requires TurnsInOrder(ready, turns, pushed) && ready != [] && turn.lane == ready[0]
    ensures TurnsInOrder(ready[1..], turns + [turn], pushed)
  {}

  lemma TurnKeepsInv(c: int, s: Slots, jobs: Jobs, accepted: seq<Job>, dropped: set<Serial>)
    requires s.ready != [] && s.active < c && SlotsInv(c, s, jobs, accepted, dropped)
    ensures SlotsInv(c, PumpOnce(s), jobs, accepted, dropped)
  {
    hide Placed, Awake, TurnsInOrder, InOrder, ChainsRun, ChainsStarted, Known;
    var lane, s' := s.ready[0], PumpOnce(s);
    TurnKeepsAwake(s.lanes, s.running, s.ready, s'.lanes, s'.running);
    TurnTaken(s.ready, s.turns, s.pushed, s'.turns[|s.turns|]);
    if lane in s.running {
      NoStartKeepsOrder(accepted, dropped, s.turns, Busy(lane), s.lanes, s.lanes);
      NoStartKeepsChains(s.stage, s.turns, Busy(lane), s.lanes, lane, dropped);
    } else if Queue(s.lanes, lane) == [] {
      ForgettingKeepsPlaces(s.lanes, s.running, jobs, lane);
      NoStartKeepsOrder(accepted, dropped, s.turns, Empty(lane), s.lanes, s.lanes - {lane});
      NoStartKeepsChains(s.stage, s.turns, Empty(lane), s.lanes, lane, dropped);
    } else {
      StartKeepsPlaces(s.lanes, s.running, jobs, lane);
      StartKeepsOrder(accepted, dropped, s.turns, s.lanes, lane);
      StartKeepsChains(s.lanes, s.running, jobs, s.stage, s.turns, accepted, dropped, lane);
    }
  }

  ghost predicate StagesKept(stage: map<Serial, Stage>, stage': map<Serial, Stage>) {
    forall i :: i in stage ==> i in stage' && stage'[i] == stage[i]
  }

  lemma TurnKeepsStages(s: Slots, dropped: set<Serial>)
    requires s.ready != [] && ChainsStarted(s.stage, s.turns, s.lanes, dropped)
    ensures StagesKept(s.stage, PumpOnce(s).stage)
  {}

  lemma {:induction false} PumpKeepsInv(c: int, s: Slots, jobs: Jobs, accepted: seq<Job>, dropped: set<Serial>)
    requires SlotsInv(c, s, jobs, accepted, dropped)
    ensures SlotsInv(c, Pump(c, s), jobs, accepted, dropped) && Quiet(c, Pump(c, s))
    ensures StagesKept(s.stage, Pump(c, s).stage)
    decreases |s.ready|
  {
    hide Known, Placed, Counted, Awake, TurnsInOrder, InOrder, ChainsRun, ChainsStarted;
    if s.active >= c || s.ready == [] {
    } else {
      TurnKeepsStages(s, dropped);
      TurnKeepsInv(c, s, jobs, accepted, dropped);
      PumpKeepsInv(c, PumpOnce(s), jobs, accepted, dropped);
    }
  }

  // What the operations do before they pump --------------------------------------------

  /** One lane changes; it has nothing to run, or runs, or is ready. */
  lemma LaneStaysAwake(lanes: Lanes, running: Running, ready: seq<Lane>,
                       lanes': Lanes, running': Running, ready': seq<Lane>, lane: Lane)
    requires Awake(lanes, running, ready)
    requires ready' == ready || (ready' == ready + [lane] && lane !in ready)
    requires forall l :: l != lane ==> Queue(lanes', l) == Queue(lanes, l) && (l in running ==> l in running')
    requires Queue(lanes', lane) == [] || lane in running' || lane in ready'
    ensures Awake(lanes', running', ready')
  {}

  lemma PushKeepsTurns(ready: seq<Lane>, turns: seq<Turn>, pushed: seq<Lane>, lane: Lane)
    requires TurnsInOrder(ready, turns, pushed)
    ensures TurnsInOrder(ready + [lane], turns, pushed + [lane])
  {}

  lemma KeptNext(accepted: seq<Job>, job: Job, l: Lane, dropped: set<Serial>)
    ensures Kept(accepted + [job], l, dropped)
      == Kept(accepted, l, dropped) + if job.lane == l && job.serial !in dropped then [job] else []
  {
    assert (accepted + [job])[..|accepted|] == accepted;
  }

  lemma EnqueueKeepsOrder(accepted: seq<Job>, dropped: set<Serial>, turns: seq<Turn>, lanes: Lanes, job: Job)
    requires InOrder(accepted, dropped, turns, lanes) && job.serial !in dropped
    ensures InOrder(accepted + [job], dropped, turns, lanes[job.lane := Queue(lanes, job.lane) + [job]])
  {
    hide Kept, Starts;
    var lanes' := lanes[job.lane := Queue(lanes, job.lane) + [job]];
    forall l
      ensures Kept(accepted + [job], l, dropped) == Starts(turns, l) + Queue(lanes', l)
    {
      KeptNext(accepted, job, l, dropped);
      assert Kept(accepted, l, dropped) == Starts(turns, l) + Queue(lanes, l);
      if l == job.lane {
        assert Queue(lanes', l) == Queue(lanes, l) + [job];
      } else {
        assert Queue(lanes', l) == Queue(lanes, l);
      }
    }
  }

  lemma EnqueueKeepsPlaces(lanes: Lanes, running: Running, jobs: Jobs, job: Job)
    requires Placed(lanes, running, jobs) && job.id !in jobs
    ensures Placed(lanes[job.lane := Queue(lanes, job.lane) + [job]], running, jobs[job.id := job])
  {
    var lanes', jobs' := lanes[job.lane := Queue(lanes, job.lane) + [job]], jobs[job.id := job];
    forall l | l in lanes'
      ensures QueueOk(l, lanes'[l], running, jobs')
    {
      assert l in lanes ==> QueueOk(l, lanes[l], running, jobs);
    }
  }

  lemma EnqueueKeepsChains(s: Slots, accepted: seq<Job>, dropped: set<Serial>, job: Job)
    requires ChainsRun(s.running, s.stage, accepted) && ChainsStarted(s.stage, s.turns, s.lanes, dropped)
    requires job.serial == |accepted|
    ensures ChainsRun(s.running, s.stage, accepted + [job])
    ensures ChainsStarted(s.stage, s.turns, s.lanes[job.lane := Queue(s.lanes, job.lane) + [job]], dropped)
  {
    var lanes' := s.lanes[job.lane := Queue(s.lanes, job.lane) + [job]];
    forall l | l in lanes'
      ensures forall j: Job :: j in lanes'[l] ==> j.serial !in s.stage
    {
      assert forall j: Job :: l in s.lanes && j in s.lanes[l] ==> j.serial !in s.stage;
    }
  }

  lemma EnqueueKeepsInv(c: int, s: Slots, jobs: Jobs, accepted: seq<Job>, dropped: set<Serial>, job: Job)
    requires SlotsInv(c, s, jobs, accepted, dropped)
    requires job.id !in jobs && job.serial == |accepted| && job.serial !in dropped
    ensures SlotsInv(c, Enqueue(s, job), jobs[job.id := job], accepted + [job], dropped)
  {
    hide Placed, Awake, TurnsInOrder, InOrder, ChainsRun, ChainsStarted;
    var s' := Enqueue(s, job);
    EnqueueKeepsPlaces(s.lanes, s.running, jobs, job);
    EnqueueKeepsOrder(accepted, dropped, s.turns, s.lanes, job);
    EnqueueKeepsChains(s, accepted, dropped, job);
    LaneStaysAwake(s.lanes, s.running, s.ready, s'.lanes, s'.running, s'.ready, job.lane);
    PushKeepsTurns(s.ready, s.turns, s.pushed, job.lane);
  }

  lemma {:induction false} WithoutNoDuplicates(q: seq<Job>, job: Job)
    requires NoDuplicates(q)
    ensures NoDuplicates(Without(q, job))
  {
    if q == [] {
    } else {
      var rest := Without(q[1..], job);
      WithoutNoDuplicates(q[1..], job);
      assert q[0] !in rest && NoDuplicates([q[0]] + rest);
    }
  }

  lemma {:induction false} WithoutAbsent(q: seq<Job>, job: Job)
    requires job !in q
    ensures Without(q, job) == q
  {
    if q == [] {
    } else {
      WithoutAbsent(q[1..], job);
    }
  }

  lemma {:induction false} WithoutConcat(p: seq<Job>, q: seq<Job>, job: Job)
    ensures Without(p + q, job) == Without(p, job) + Without(q, job)
  {
    if p == [] {
      assert p + q == q;
    } else {
      var first := if p[0] == job then [] else [p[0]];
      WithoutConcat(p[1..], q, job);
      assert (p + q)[1..] == p[1..] + q;
      assert Without(p + q, job) == first + Without((p + q)[1..], job);
      assert Without(p, job) == first + Without(p[1..], job);
      SeqAssociates(first, Without(p[1..], job), Without(q, job));
    }
  }

  /** Dropping a job removes exactly that job from its lane. */
  lemma {:induction false} KeptWithout(accepted: seq<Job>, l: Lane, dropped: set<Serial>, job: Job)
    requires forall i :: 0 <= i < |accepted| && accepted[i].serial == job.serial ==> accepted[i] == job
    ensures Kept(accepted, l, dropped + {job.serial}) == Without(Kept(accepted, l, dropped), job)
  {
    if accepted == [] {
    } else {
      var rest := accepted[..|accepted| - 1];
      var last := accepted[|accepted| - 1];
      KeptWithout(rest, l, dropped, job);
      WithoutConcat(Kept(rest, l, dropped), if last.lane == l && last.serial !in dropped then [last] else [], job);
    }
  }

  lemma {:induction false} StartsAreTurns(turns: seq<Turn>, l: Lane)
    ensures forall j :: j in Starts(turns, l) ==> exists i :: 0 <= i < |turns| && turns[i] == Started(l, j)
  {
    if turns == [] {
    } else {
      StartsAreTurns(turns[..|turns| - 1], l);
      forall j | j in Starts(turns, l)
        ensures exists i :: 0 <= i < |turns| && turns[i] == Started(l, j)
      {
        if j in Starts(turns[..|turns| - 1], l) {
          var i :| 0 <= i < |turns| - 1 && turns[..|turns| - 1][i] == Started(l, j);
          assert turns[i] == Started(l, j);
        } else {
          assert turns[|turns| - 1] == Started(l, j);
        }
      }
    }
  }

  lemma DropKeepsOrder(accepted: seq<Job>, dropped: set<Serial>, turns: seq<Turn>, lanes: Lanes, job: Job,
                       lanes': Lanes)
    requires InOrder(accepted, dropped, turns, lanes) && Numbered(accepted) && job in accepted
    requires forall l :: job !in Starts(turns, l)
    requires forall l :: Queue(lanes', l) == Without(Queue(lanes, l), job)
    ensures InOrder(accepted, dropped + {job.serial}, turns, lanes')
  {
    forall l
      ensures Kept(accepted, l, dropped + {job.serial}) == Starts(turns, l) + Queue(lanes', l)
    {
      KeptWithout(accepted, l, dropped, job);
      WithoutConcat(Starts(turns, l), Queue(lanes, l), job);
      WithoutAbsent(Starts(turns, l), job);
    }
  }

  lemma DropKeepsQueue(l: Lane, queue: seq<Job>, running: Running, jobs: Jobs, job: Job)
    requires (queue == [] || QueueOk(l, queue, running, jobs)) && job.id in jobs && jobs[job.id] == job
    ensures QueueOk(l, Without(queue, job), running, jobs - {job.id})
  {
    hide Runs;
    WithoutNoDuplicates(queue, job);
  }

  lemma DropKeepsTable(lanes: Lanes, running: Running, jobs: Jobs, job: Job, lanes': Lanes)
    requires RunningOk(running, jobs) && JobsOk(lanes, running, jobs)
    requires job.id in jobs && jobs[job.id] == job && !Runs(running, job)
    requires forall l :: Queue(lanes', l) == Without(Queue(lanes, l), job)
    ensures RunningOk(running, jobs - {job.id}) && JobsOk(lanes', running, jobs - {job.id})
  {
    hide Queue;
  }

  /** The job leaves its queue and the table. */
  lemma DropKeepsPlaces(lanes: Lanes, running: Running, jobs: Jobs, job: Job, lanes': Lanes)
    requires Placed(lanes, running, jobs) && job.id in jobs && jobs[job.id] == job && !Runs(running, job)
    requires forall l :: Queue(lanes', l) == Without(Queue(lanes, l), job)
    ensures Placed(lanes', running, jobs - {job.id})
  {
    hide QueueOk, RunningOk, JobsOk, Without, Runs;
    var jobs' := jobs - {job.id};
    forall l | l in lanes'
      ensures QueueOk(l, lanes'[l], running, jobs')
    {
      assert lanes'[l] == Queue(lanes', l);
      assert l in lanes ==> QueueOk(l, lanes[l], running, jobs);
      DropKeepsQueue(l, Queue(lanes, l), running, jobs, job);
    }
    DropKeepsTable(lanes, running, jobs, job, lanes');
  }

  lemma DropKeepsChains(s: Slots, dropped: set<Serial>, job: Job, lanes': Lanes)
    requires ChainsStarted(s.stage, s.turns, s.lanes, dropped) && job.serial !in s.stage
    requires forall l :: Queue(lanes', l) == Without(Queue(s.lanes, l), job)
    ensures ChainsStarted(s.stage, s.turns, lanes', dropped + {job.serial})
    ensures forall l :: job !in Starts(s.turns, l)
  {
    forall l | l in lanes'
      ensures forall j: Job :: j in lanes'[l] ==> j.serial !in s.stage
    {
      assert lanes'[l] == Queue(lanes', l);
    }
    forall l
      ensures job !in Starts(s.turns, l)
    {
      StartsAreTurns(s.turns, l);
    }
  }

  lemma VacatedQueues(s: Slots, job: Job)
    ensures forall l :: Queue(Vacate(s, job).lanes, l) == Queue(s.lanes, l)
    ensures Vacate(s, job).stage == s.stage && Vacate(s, job).turns == s.turns
    ensures Vacate(s, job).running == if Runs(s.running, job) then s.running - {job.lane} else s.running
  {}

  lemma VacateKeepsCount(c: int, s: Slots, job: Job)
    requires Counted(c, s.running, s.active)
    ensures Counted(c, Vacate(s, job).running, Vacate(s, job).active)
  {
    assert Runs(s.running, job) ==> (s.running - {job.lane}).Keys == s.running.Keys - {job.lane};
  }

  lemma VacatedLaneIsReady(s: Slots, job: Job)
    ensures
      var v := Vacate(s, job);
      && (Queue(s.lanes, job.lane) == [] || job.lane in v.ready)
      && (if v.ready == s.ready then v.pushed == s.pushed
          else v.ready == s.ready + [job.lane] && job.lane !in s.ready && v.pushed == s.pushed + [job.lane])
  {}

  /** The lane that is vacated becomes ready when it has something to run. */
  lemma VacateKeepsReady(c: int, s: Slots, u: Slots, job: Job)
    requires Counted(c, s.running, s.active) && Awake(s.lanes, s.running, s.ready)
    requires TurnsInOrder(s.ready, s.turns, s.pushed)
    requires u == s.(lanes := u.lanes, stage := u.stage)
    requires forall l :: l != job.lane ==> Queue(u.lanes, l) == Queue(s.lanes, l)
    ensures
      var v := Vacate(u, job);
      Counted(c, v.running, v.active) && Awake(v.lanes, v.running, v.ready) && TurnsInOrder(v.ready, v.turns, v.pushed)
  {
    hide Awake, TurnsInOrder, Vacate, Counted, Queue;
    var v := Vacate(u, job);
    VacatedQueues(u, job);
    VacatedLaneIsReady(u, job);
    VacateKeepsCount(c, u, job);
    LaneStaysAwake(s.lanes, s.running, s.ready, v.lanes, v.running, v.ready, job.lane);
    PushKeepsTurns(s.ready, s.turns, s.pushed, job.lane);
  }

  lemma UnqueuedQueues(s: Slots, job: Job)
    requires forall l :: l in s.lanes && l != job.lane ==> job !in s.lanes[l]
    ensures forall l :: Queue(Unqueued(s, job).lanes, l) == Without(Queue(s.lanes, l), job)
    ensures forall l :: l != job.lane ==> Queue(Unqueued(s, job).lanes, l) == Queue(s.lanes, l)
  {
    forall l
      ensures Queue(Unqueued(s, job).lanes, l) == Without(Queue(s.lanes, l), job)
    {
      if l != job.lane {
        WithoutAbsent(Queue(s.lanes, l), job);
      }
    }
  }

  /** A job of the table that does not run waits in its lane, and only there. */
  lemma WaitsInItsLane(s: Slots, jobs: Jobs, dropped: set<Serial>, job: Job)
    requires Placed(s.lanes, s.running, jobs) && ChainsStarted(s.stage, s.turns, s.lanes, dropped)
    requires job.id in jobs && jobs[job.id] == job && !Runs(s.running, job)
    ensures job in Queue(s.lanes, job.lane) && job.serial !in s.stage
    ensures forall l :: l in s.lanes && l != job.lane ==> job !in s.lanes[l]
    ensures forall id :: id in jobs ==> jobs[id].id == id
  {
    forall l | l in s.lanes && l != job.lane
      ensures job !in s.lanes[l]
    {
      assert QueueOk(l, s.lanes[l], s.running, jobs);
    }
  }

  /** A job that is cancelled while it waits leaves no trace but its history. */
  lemma DropKeepsInv(c: int, s: Slots, jobs: Jobs, accepted: seq<Job>, dropped: set<Serial>, job: Job)
    requires SlotsInv(c, s, jobs, accepted, dropped) && Numbered(accepted)
    requires job.id in jobs && jobs[job.id] == job && !Runs(s.running, job)
    ensures SlotsInv(c, Vacate(Unqueued(s, job), job), jobs - {job.id}, accepted, dropped + {job.serial})
  {
    hide Placed, Counted, Awake, TurnsInOrder, InOrder, ChainsRun, ChainsStarted, Without, Vacate, Queue, Numbered;
    var u := Unqueued(s, job);
    var s' := Vacate(u, job);
    WaitsInItsLane(s, jobs, dropped, job);
    UnqueuedQueues(s, job);
    VacatedQueues(u, job);
    VacateKeepsReady(c, s, u, job);
    DropKeepsPlaces(s.lanes, s.running, jobs, job, s'.lanes);
    DropKeepsChains(s, dropped, job, s'.lanes);
    DropKeepsOrder(accepted, dropped, s.turns, s.lanes, job, s'.lanes);
    DropKeepsKnown(jobs, accepted, dropped, job);
  }

  lemma DropKeepsKnown(jobs: Jobs, accepted: seq<Job>, dropped: set<Serial>, job: Job)
    requires Known(jobs, accepted, dropped) && job.id in jobs && jobs[job.id] == job
    requires forall id :: id in jobs ==> jobs[id].id == id
    ensures Known(jobs - {job.id}, accepted, dropped + {job.serial})
  {}

  lemma LeaveKeepsPlaces(lanes: Lanes, running: Running, jobs: Jobs, job: Job, lanes': Lanes)
    requires Placed(lanes, running, jobs) && Runs(running, job)
    requires forall l :: Queue(lanes', l) == Queue(lanes, l)
    ensures Placed(lanes', running - {job.lane}, jobs - {job.id})
  {
    var jobs', running' := jobs - {job.id}, running - {job.lane};
    forall l | l in lanes'
      ensures QueueOk(l, lanes'[l], running', jobs')
    {
      assert lanes'[l] == Queue(lanes', l);
      assert l in lanes ==> QueueOk(l, lanes[l], running, jobs);
    }
  }

  lemma LeaveKeepsChains(s: Slots, jobs: Jobs, accepted: seq<Job>, dropped: set<Serial>, job: Job, lanes': Lanes)
    requires RunningOk(s.running, jobs) && Known(jobs, accepted, dropped) && Numbered(accepted)
    requires ChainsRun(s.running, s.stage, accepted) && ChainsStarted(s.stage, s.turns, s.lanes, dropped)
    requires Runs(s.running, job)
    requires forall l :: Queue(lanes', l) == Queue(s.lanes, l)
    ensures ChainsRun(s.running - {job.lane}, s.stage[job.serial := Completed], accepted)
    ensures ChainsStarted(s.stage[job.serial := Completed], s.turns, lanes', dropped)
  {
    forall l | l in lanes'
      ensures forall j: Job :: j in lanes'[l] ==> j.serial !in s.stage
    {
      assert lanes'[l] == Queue(lanes', l);
    }
  }

  /** A running job whose chain has completed leaves its lane. */
  lemma LeaveKeepsInv(c: int, s: Slots, jobs: Jobs, accepted: seq<Job>, dropped: set<Serial>, job: Job)
    requires SlotsInv(c, s, jobs, accepted, dropped) && Numbered(accepted)
    requires Runs(s.running, job)
    ensures SlotsInv(c, Vacate(s.(stage := s.stage[job.serial := Completed]), job), jobs - {job.id}, accepted, dropped)
  {
    hide Counted, Awake, TurnsInOrder, InOrder, ChainsRun, ChainsStarted, Vacate, Queue, Numbered, QueueOk, JobsOk;
    var u := s.(stage := s.stage[job.serial := Completed]);
    var s' := Vacate(u, job);
    VacatedQueues(u, job);
    VacateKeepsReady(c, s, u, job);
    LeaveKeepsPlaces(s.lanes, s.running, jobs, job, s'.lanes);
    LeaveKeepsChains(s, jobs, accepted, dropped, job, s'.lanes);
    SameQueuesKeepOrder(accepted, dropped, s.turns, s.lanes, s'.lanes);
  }

  lemma SameQueuesKeepOrder(accepted: seq<Job>, dropped: set<Serial>, turns: seq<Turn>, lanes: Lanes, lanes': Lanes)
    requires InOrder(accepted, dropped, turns, lanes)
    requires forall l :: Queue(lanes', l) == Queue(lanes, l)
    ensures InOrder(accepted, dropped, turns, lanes')
  {}

  // The operations -----------------------------------------------------------------------

  lemma SubmitKeepsSettled(jobs: Jobs, accepted: seq<Job>, settled: multiset<Serial>, job: Job)
    requires SettledOnce(jobs, accepted, settled) && Numbered(accepted)
    requires job.id !in jobs && job.serial == |accepted|
    ensures SettledOnce(jobs[job.id := job], accepted + [job], settled)
  {
    var accepted' := accepted + [job];
    forall i | 0 <= i < |accepted'|
      ensures var j := accepted'[i];
        settled[i] == if j.id in jobs[job.id := job] && jobs[job.id := job][j.id] == j then 0 else 1
    {
      if i < |accepted| {
        assert accepted'[i] == accepted[i] && accepted[i].serial == i;
      }
    }
  }

  lemma SubmitKeepsExecuted(s: Sched, slots: Slots)
    requires ExecutedOnce(s.executed, s.slots.stage) && StagesKept(s.slots.stage, slots.stage)
    ensures ExecutedOnce(s.executed, slots.stage)
  {}

  lemma SubmitKeepsLog(capacity: int, s: Sched, job: Job, slots: Slots)
    requires LogInv(capacity, s) && StagesKept(s.slots.stage, slots.stage)
    requires job.id !in s.jobs && |s.jobs| < capacity && job.serial == |s.accepted|
    ensures LogInv(capacity, s.(jobs := s.jobs[job.id := job], accepted := s.accepted + [job], slots := slots))
    ensures job.serial !in s.dropped
  {
    hide SettledOnce, ExecutedOnce;
    SubmitKeepsSettled(s.jobs, s.accepted, s.settled, job);
    SubmitKeepsExecuted(s, slots);
    assert |s.jobs| == |s.jobs.Keys|;
    assert s.jobs[job.id := job].Keys == s.jobs.Keys + {job.id};
  }

  lemma EnqueueKeepsStage(s: Slots, job: Job)
    ensures Enqueue(s, job).stage == s.stage
  {}

  lemma SubmitKeepsInv(c: int, capacity: int, s: Sched, id: JobId, lane: Lane, expired: bool)
    requires Inv(c, capacity, s) && Quiet(c, s.slots)
    ensures Inv(c, capacity, Submit(c, capacity, s, id, lane, expired))
    ensures Quiet(c, Submit(c, capacity, s, id, lane, expired).slots)
  {
    hide SlotsInv, LogInv, Enqueue, Pump;
    if SubmitRefusal(capacity, s.jobs, id, expired).None? {
      var job := Job(id, lane, |s.accepted|);
      SubmitKeepsLog(capacity, s, job, s.slots);
      EnqueueKeepsInv(c, s.slots, s.jobs, s.accepted, s.dropped, job);
      EnqueueKeepsStage(s.slots, job);
      PumpKeepsInv(c, Enqueue(s.slots, job), s.jobs[id := job], s.accepted + [job], s.dropped);
      SubmitKeepsLog(capacity, s, job, Pump(c, Enqueue(s.slots, job)));
    }
  }

  /** `slots` continues the promise chains of the scheduler, or completes one. */
  lemma FinishKeepsLog(capacity: int, s: Sched, job: Job, slots: Slots, dropped: set<Serial>)
    requires LogInv(capacity, s) && Known(s.jobs, s.accepted, s.dropped) && job.id in s.jobs && s.jobs[job.id] == job
    requires forall id :: id in s.jobs ==> s.jobs[id].id == id
    requires StagesKept(s.slots.stage, slots.stage) || StagesKept(s.slots.stage[job.serial := Completed], slots.stage)
    requires dropped == s.dropped || dropped == s.dropped + {job.serial}
    ensures LogInv(capacity, s.(jobs := s.jobs - {job.id}, slots := slots, dropped := dropped,
                                settled := s.settled + multiset{job.serial}))
  {
    var s' := s.(jobs := s.jobs - {job.id}, slots := slots, dropped := dropped,
                 settled := s.settled + multiset{job.serial});
    assert s'.jobs.Keys <= s.jobs.Keys;
    assert s'.jobs.Keys == s.jobs.Keys - {job.id};
    assert ExecutedOnce(s'.executed, s'.slots.stage);
    forall i | 0 <= i < |s.accepted|
      ensures var j := s.accepted[i]; s'.settled[i] == if j.id in s'.jobs && s'.jobs[j.id] == j then 0 else 1
    {
      if i == job.serial {
        assert s.accepted[i] == job;
      }
    }
  }

  lemma TableFacts(c: int, capacity: int, s: Sched, id: JobId)
    requires Inv(c, capacity, s)
    ensures Numbered(s.accepted) && Known(s.jobs, s.accepted, s.dropped)
    ensures forall id :: id in s.jobs ==> s.jobs[id].id == id
  {}

  /** The state in which `cancel` leaves a job that was waiting. */
  lemma CancelOfWaiting(c: int, s: Sched, id: JobId)
    requires id in s.jobs && s.jobs[id].id == id && !Runs(s.slots.running, s.jobs[id])
    ensures
      var job := s.jobs[id];
      var slots := Pump(c, Vacate(Unqueued(s.slots, job), job));
      Cancel(c, s, id) == s.(jobs := s.jobs - {id}, slots := Pump(c, slots), aborted := s.aborted + {job.serial},
                             dropped := s.dropped + {job.serial}, settled := s.settled + multiset{job.serial})
    ensures Vacate(Unqueued(s.slots, s.jobs[id]), s.jobs[id]).stage == s.slots.stage
  {
    hide Pump;
  }

  lemma CancelKeepsInv(c: int, capacity: int, s: Sched, id: JobId)
    requires Inv(c, capacity, s) && Quiet(c, s.slots)
    ensures Inv(c, capacity, Cancel(c, s, id)) && Quiet(c, Cancel(c, s, id).slots)
  {
    TableFacts(c, capacity, s, id);
    if id in s.jobs && !Runs(s.slots.running, s.jobs[id]) {
      WaitingCancelKeepsInv(c, capacity, s, id);
    }
  }

  lemma WaitingCancelKeepsInv(c: int, capacity: int, s: Sched, id: JobId)
    requires Inv(c, capacity, s) && id in s.jobs && !Runs(s.slots.running, s.jobs[id])
    ensures Inv(c, capacity, Cancel(c, s, id)) && Quiet(c, Cancel(c, s, id).slots)
  {
    hide SlotsInv, LogInv, Vacate, Unqueued, Pump, Known, Cancel, Runs, Numbered;
    var job := s.jobs[id];
    var vacated := Vacate(Unqueued(s.slots, job), job);
    var dropped := s.dropped + {job.serial};
    TableFacts(c, capacity, s, id);
    CancelOfWaiting(c, s, id);
    DropKeepsInv(c, s.slots, s.jobs, s.accepted, s.dropped, job);
    PumpKeepsInv(c, vacated, s.jobs - {id}, s.accepted, dropped);
    PumpKeepsInv(c, Pump(c, vacated), s.jobs - {id}, s.accepted, dropped);
    FinishKeepsLog(capacity, s, job, Pump(c, Pump(c, vacated)), dropped);
    LogIgnoresSignals(capacity, s.(jobs := s.jobs - {id}, slots := Pump(c, Pump(c, vacated)), dropped := dropped,
                                   settled := s.settled + multiset{job.serial}), s.aborted + {job.serial});
  }

  lemma LogIgnoresSignals(capacity: int, s: Sched, aborted: set<Serial>)
    requires LogInv(capacity, s)
    ensures LogInv(capacity, s.(aborted := aborted))
  {}

  lemma BeginKeepsInv(c: int, capacity: int, s: Sched, job: Job)
    requires Inv(c, capacity, s) && Begin(s, job).Some?
    ensures Inv(c, capacity, Begin(s, job).value)
  {
    hide Known, Placed, Counted, Awake, TurnsInOrder, InOrder, SettledOnce, Numbered, Runs;
  }

  /** The job whose chain ends is the one that runs in its lane, and the table
      holds it: a completion is never stale. */
  lemma ChainEndIsRunning(c: int, capacity: int, s: Sched, job: Job)
    requires Inv(c, capacity, s) && End(c, s, job).Some?
    ensures Runs(s.slots.running, job) && job.id in s.jobs && s.jobs[job.id] == job
  {}

  lemma EndKeepsInv(c: int, capacity: int, s: Sched, job: Job)
    requires Inv(c, capacity, s) && End(c, s, job).Some?
    ensures Inv(c, capacity, End(c, s, job).value) && Quiet(c, End(c, s, job).value.slots)
  {
    hide SlotsInv, LogInv, Vacate, Pump, Known, Runs, Numbered;
    ChainEndIsRunning(c, capacity, s, job);
    TableFacts(c, capacity, s, job.id);
    var u := s.slots.(stage := s.slots.stage[job.serial := Completed]);
    LeaveKeepsInv(c, s.slots, s.jobs, s.accepted, s.dropped, job);
    VacatedQueues(u, job);
    PumpKeepsInv(c, Vacate(u, job), s.jobs - {job.id}, s.accepted, s.dropped);
    FinishKeepsLog(capacity, s, job, Pump(c, Vacate(u, job)), s.dropped);
  }

  lemma {:induction false} CancelEachKeepsInv(c: int, capacity: int, s: Sched, ids: seq<JobId>)
    requires Inv(c, capacity, s) && Quiet(c, s.slots)
    ensures Inv(c, capacity, CancelEach(c, s, ids)) && Quiet(c, CancelEach(c, s, ids).slots)
  {
    hide Inv, Cancel;
    if ids == [] {
    } else {
      CancelEachKeepsInv(c, capacity, s, ids[..|ids| - 1]);
      CancelKeepsInv(c, capacity, CancelEach(c, s, ids[..|ids| - 1]), ids[|ids| - 1]);
    }
  }

  lemma StepKeepsInv(c: int, capacity: int, s: Sched, e: Event)
    requires Inv(c, capacity, s) && Quiet(c, s.slots) && Next(c, capacity, s, e).Some?
    ensures
      var s' := Next(c, capacity, s, e).value;
      Inv(c, capacity, s') && Quiet(c, s'.slots)
  {
    hide Inv, Cancel, CancelEach, Submit, End;
    match e
    case Submitted(id, lane, expired) => SubmitKeepsInv(c, capacity, s, id, lane, expired);
    case Cancelled(id) => CancelKeepsInv(c, capacity, s, id);
    case AllCancelled(order) => CancelEachKeepsInv(c, capacity, s, order);
    case Begun(job) => BeginKeepsInv(c, capacity, s, job);
    case Ended(job) => EndKeepsInv(c, capacity, s, job);
  }

  lemma {:induction false} RunKeepsInv(c: int, capacity: int, s: Sched, es: seq<Event>)
    requires Inv(c, capacity, s) && Quiet(c, s.slots) && RunFrom(c, capacity, s, es).Some?
    ensures
      var s' := RunFrom(c, capacity, s, es).value;
      Inv(c, capacity, s') && Quiet(c, s'.slots)
  {
    hide Inv, Quiet, Next;
    if es == [] {
    } else {
      RunKeepsInv(c, capacity, s, es[..|es| - 1]);
      StepKeepsInv(c, capacity, RunFrom(c, capacity, s, es[..|es| - 1]).value, es[|es| - 1]);
    }
  }

  lemma InitialInv(c: int, capacity: int)
    ensures Inv(c, capacity, InitialSched) && Quiet(c, InitialSched.slots)
  {}

  lemma EveryRunKeepsInv(c: int, capacity: int, es: seq<Event>)
    requires Run(c, capacity, es).Some?
    ensures
      var s := Run(c, capacity, es).value;
      Inv(c, capacity, s) && Quiet(c, s.slots)
  {
    InitialInv(c, capacity);
    RunKeepsInv(c, capacity, InitialSched, es);
  }
}
