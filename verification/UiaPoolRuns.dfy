/** The worker pool over whole runs: submissions and retirements interleaved with workers that take jobs,
    respond, clear their flags, die and leave. */
module UiaPoolRuns {
  import opened Wrappers
  import opened UiaPool

  datatype Start = Start(job: JobId, slot: SlotId)

  /** `retired` and `dropped` count the slots that left the pool; the last three fields are the history of jobs. */
  datatype Machine = Machine(
    pool: Pool,
    retired: nat,
    dropped: nat,
    submitted: set<JobId>,
    accepted: map<JobId, SlotId>,
    started: seq<Start>)

  datatype Label =
    | SubmitJob(job: JobId, free: set<SlotId>, spawn: Spawn)
    | RetireSlot(id: SlotId)
    | Take(id: SlotId)
    | Respond(id: SlotId)
    | Clear(id: SlotId)
    | Die(id: SlotId)
    | Leave(id: SlotId)      // the channel is closed and empty

  function InitialMachine(): Machine {
    Machine(Pool([], 0, 0, map[]), 0, 0, {}, map[], [])
  }

  predicate MayTake(w: Worker) {
    w.alive && w.running.None? && !w.responded && w.queue != []
  }

  /** A scan finds only slots that are not busy when it ends, but may miss one freed behind it: a flag can be
      cleared during a submission, not set. */
  ghost predicate Enabled(m: Machine, l: Label) {
    match l
    case SubmitJob(job, free, _) => SlotsHaveWorkers(m.pool) && job !in m.submitted && free <= NotBusy(m.pool)
    case RetireSlot(_) => SlotsHaveWorkers(m.pool)
    case Take(id) => id in m.pool.workers && MayTake(m.pool.workers[id])
    case Respond(id) => id in m.pool.workers && m.pool.workers[id].alive && m.pool.workers[id].running.Some?
    case Clear(id) => id in m.pool.workers && m.pool.workers[id].alive && m.pool.workers[id].responded
    case Die(id) => id in m.pool.workers && m.pool.workers[id].alive
    case Leave(id) =>
      && id in m.pool.workers && m.pool.workers[id].alive && !m.pool.workers[id].connected
      && m.pool.workers[id].queue == [] && m.pool.workers[id].running.None? && !m.pool.workers[id].responded
  }

  function SetWorker(p: Pool, id: SlotId, w: Worker): Pool {
    p.(workers := p.workers[id := w])
  }

  ghost function Next(limits: Limits, m: Machine, l: Label): Machine
    requires Enabled(m, l)
  {
    match l
    case SubmitJob(job, free, spawn) => AfterSubmit(limits, m, job, free, spawn)
    case RetireSlot(id) => m.(pool := Retire(m.pool, id), retired := m.retired + if id in m.pool.slots then 1 else 0)
    case Take(id) =>
      var w := m.pool.workers[id];
      m.(pool := SetWorker(m.pool, id, w.(queue := w.queue[1..], running := Some(w.queue[0]))),
         started := m.started + [Start(w.queue[0], id)])
    case Respond(id) => m.(pool := SetWorker(m.pool, id, m.pool.workers[id].(running := None, responded := true)))
    case Clear(id) => m.(pool := SetWorker(m.pool, id, m.pool.workers[id].(busy := false, responded := false)))
    case Die(id) => m.(pool := SetWorker(m.pool, id, Gone(m.pool.workers[id])))
    case Leave(id) => m.(pool := SetWorker(m.pool, id, Gone(m.pool.workers[id])))
  }

  /** The thread is gone and its channel with it; the flag keeps its last value. */
  function Gone(w: Worker): Worker {
    w.(alive := false, queue := [], running := None, responded := false)
  }

  function AfterSubmit(limits: Limits, m: Machine, job: JobId, free: set<SlotId>, spawn: Spawn): Machine
    requires SlotsHaveWorkers(m.pool)
  {
    var s := Submit(limits, m.pool, job, free, spawn);
    var i := FirstFree(m.pool.slots, free);
    m.(pool := s.pool,
       dropped := m.dropped + if i < |m.pool.slots| && !m.pool.workers[m.pool.slots[i]].alive then 1 else 0,
       submitted := m.submitted + {job},
       accepted := if s.result.Accepted? then m.accepted[job := s.result.slot] else m.accepted)
  }

  // ---------------------------------------------------------------- the slots

  ghost predicate Distinct(slots: seq<SlotId>) {
    forall i, j :: 0 <= i < j < |slots| ==> slots[i] != slots[j]
  }

  ghost predicate SlotsSound(limits: Limits, m: Machine) {
    && Distinct(m.pool.slots) && SlotsHaveWorkers(m.pool)
    && (forall id :: id in m.pool.workers ==> id < m.pool.nextId)
    && |m.pool.slots| <= limits.maxWorkers
    && |m.pool.slots| + m.retired + m.dropped == m.pool.created <= limits.maxLifetime
  }

  lemma RemoveAtFacts(slots: seq<SlotId>, i: nat)
    requires i < |slots| && Distinct(slots)
    ensures Distinct(RemoveAt(slots, i)) && |RemoveAt(slots, i)| == |slots| - 1
    ensures forall x :: x in RemoveAt(slots, i) ==> x in slots
  {}

  lemma {:induction false} WithoutFacts(slots: seq<SlotId>, id: SlotId)
    requires Distinct(slots)
    ensures Distinct(Without(slots, id))
    ensures |Without(slots, id)| == |slots| - if id in slots then 1 else 0
  {
    if |slots| > 0 {
      assert slots == [slots[0]] + slots[1..];
      WithoutFacts(slots[1..], id);
      if slots[0] != id {
        assert slots[0] !in Without(slots[1..], id);
      }
    }
  }

  lemma GrowKeepsSlots(limits: Limits, m: Machine, p: Pool, job: JobId, spawn: Spawn)
    requires SlotsSound(limits, m.(pool := p))
    ensures SlotsSound(limits, m.(pool := Grow(limits, p, job, spawn).pool))
  {}

  lemma SubmitKeepsSlots(limits: Limits, m: Machine, job: JobId, free: set<SlotId>, spawn: Spawn)
    requires SlotsSound(limits, m)
    ensures SlotsSound(limits, AfterSubmit(limits, m, job, free, spawn))
  {
    var i := FirstFree(m.pool.slots, free);
    if i < |m.pool.slots| {
      var id := m.pool.slots[i];
      if !m.pool.workers[id].alive {
        RemoveAtFacts(m.pool.slots, i);
        var p := m.pool.(slots := RemoveAt(m.pool.slots, i),
                         workers := m.pool.workers[id := m.pool.workers[id].(busy := true, connected := false)]);
        assert m.pool.workers[id].(busy := true).(connected := false) == p.workers[id];
        GrowKeepsSlots(limits, m.(dropped := m.dropped + 1), p, job, spawn);
      }
    } else {
      GrowKeepsSlots(limits, m, m.pool, job, spawn);
    }
  }

  /** Ids are distinct, no more than `max_workers` slots exist, and every worker ever created is accounted for. */
  lemma StepKeepsSlots(limits: Limits, m: Machine, l: Label)
    requires SlotsSound(limits, m) && Enabled(m, l)
    ensures SlotsSound(limits, Next(limits, m, l))
  {
    match l
    case SubmitJob(job, free, spawn) => SubmitKeepsSlots(limits, m, job, free, spawn);
    case RetireSlot(id) =>
      WithoutFacts(m.pool.slots, id);
      assert forall i :: 0 <= i < |m.pool.slots| ==> m.pool.slots[i] in m.pool.workers;
      assert forall x :: x in Without(m.pool.slots, id) ==> x in m.pool.workers;
    case _ =>
  }

  // ---------------------------------------------------------------- the workers

  function Load(w: Worker): nat {
    |w.queue| + (if w.running.Some? then 1 else 0) + if w.responded then 1 else 0
  }

  /** A worker has at most one job, and none while it is not busy or not alive. */
  predicate WorkerSound(w: Worker) {
    && Load(w) <= 1
    && (!w.busy ==> Load(w) == 0)
    && (!w.alive ==> Load(w) == 0)
  }

  ghost predicate WorkersSound(m: Machine) {
    forall id :: id in m.pool.workers ==> WorkerSound(m.pool.workers[id])
  }

  lemma StepKeepsWorkers(limits: Limits, m: Machine, l: Label)
    requires WorkersSound(m) && Enabled(m, l)
    ensures WorkersSound(Next(limits, m, l))
  {
    match l
    case SubmitJob(job, free, spawn) => SubmitKeepsWorkers(limits, m, job, free, spawn);
    case _ =>
  }

  lemma SubmitKeepsWorkers(limits: Limits, m: Machine, job: JobId, free: set<SlotId>, spawn: Spawn)
    requires WorkersSound(m) && Enabled(m, SubmitJob(job, free, spawn))
    ensures WorkersSound(AfterSubmit(limits, m, job, free, spawn))
  {}

  // ---------------------------------------------------------------- the jobs

  /** The job waits in this worker's channel. */
  predicate Waits(m: Machine, job: JobId, id: SlotId) {
    id in m.pool.workers && job in m.pool.workers[id].queue
  }

  ghost predicate HasStarted(started: seq<Start>, job: JobId) {
    exists i :: 0 <= i < |started| && started[i].job == job
  }

  /** A job is in no channel but that of the worker it was accepted for, and not after it started; it starts at
      most once, on that worker. */
  ghost predicate JobsSound(m: Machine) {
    && m.accepted.Keys <= m.submitted
    && (forall id, job :: Waits(m, job, id) ==>
          job in m.accepted && m.accepted[job] == id && !HasStarted(m.started, job))
    && (forall i :: 0 <= i < |m.started| ==>
          m.started[i].job in m.accepted && m.accepted[m.started[i].job] == m.started[i].slot)
    && (forall i, j :: 0 <= i < j < |m.started| ==> m.started[i].job != m.started[j].job)
  }

  /** An accepted job has started, waits for its worker, or is lost because that worker died. */
  ghost predicate Accounted(m: Machine, job: JobId)
    requires job in m.accepted
  {
    || HasStarted(m.started, job)
    || Waits(m, job, m.accepted[job])
    || (m.accepted[job] in m.pool.workers && !m.pool.workers[m.accepted[job]].alive)
  }

  ghost predicate JobsAccounted(m: Machine) {
    forall job :: job in m.accepted ==> Accounted(m, job)
  }

  /** A step that starts and accepts nothing and puts nothing in a channel. */
  lemma QuietStepKeepsJobs(m: Machine, n: Machine)
    requires JobsSound(m)
    requires n.accepted == m.accepted && n.started == m.started && m.submitted <= n.submitted
    requires forall id :: id in n.pool.workers ==>
      id in m.pool.workers && (n.pool.workers[id].queue == [] || n.pool.workers[id].queue == m.pool.workers[id].queue)
    ensures JobsSound(n)
  {
    forall id, job | Waits(n, job, id) ensures Waits(m, job, id) {}
  }

  lemma StartedAppend(started: seq<Start>, last: Start, j: JobId)
    ensures HasStarted(started + [last], j) <==> HasStarted(started, j) || j == last.job
  {
    var more := started + [last];
    assert more[|started|] == last;
    if HasStarted(started, j) {
      var i :| 0 <= i < |started| && started[i].job == j;
      assert more[i].job == j;
    }
  }

  lemma TakeKeepsJobs(limits: Limits, m: Machine, id: SlotId)
    requires JobsSound(m) && WorkersSound(m) && Enabled(m, Take(id))
    ensures JobsSound(Next(limits, m, Take(id)))
  {
    var n := Next(limits, m, Take(id));
    var job := m.pool.workers[id].queue[0];
    assert WorkerSound(m.pool.workers[id]);
    assert Waits(m, job, id);
    forall x, j | Waits(n, j, x) ensures j in n.accepted && n.accepted[j] == x && !HasStarted(n.started, j) {
      assert x != id && Waits(m, j, x);
      StartedAppend(m.started, Start(job, id), j);
    }
  }

  /** The job goes into one channel, or, to a worker that died at once, into none. */
  lemma AcceptKeepsJobs(m: Machine, n: Machine, job: JobId, id: SlotId)
    requires JobsSound(m) && job !in m.submitted
    requires n.accepted == m.accepted[job := id] && n.started == m.started && n.submitted == m.submitted + {job}
    requires id in n.pool.workers && forall j :: j in n.pool.workers[id].queue ==> j == job
    requires forall x :: x in n.pool.workers && x != id ==>
      x in m.pool.workers && n.pool.workers[x].queue == m.pool.workers[x].queue
    ensures JobsSound(n)
  {
    forall x, j | Waits(n, j, x) ensures j in n.accepted && n.accepted[j] == x && !HasStarted(n.started, j) {
      if x != id {
        assert Waits(m, j, x);
      }
    }
  }

  /** What `submit` does to the channels: the job is put in the accepted worker's, which was empty or new, or
      that worker is already dead. */
  lemma SubmitChannels(limits: Limits, m: Machine, job: JobId, free: set<SlotId>, spawn: Spawn)
    requires SlotsSound(limits, m) && WorkersSound(m) && Enabled(m, SubmitJob(job, free, spawn))
    ensures var s := Submit(limits, m.pool, job, free, spawn);
            && m.pool.workers.Keys <= s.pool.workers.Keys
            && (forall x :: x in s.pool.workers && s.result != Accepted(x) ==>
                  x in m.pool.workers && s.pool.workers[x].queue == m.pool.workers[x].queue
                  && s.pool.workers[x].alive == m.pool.workers[x].alive)
            && (s.result.Accepted? ==>
                  && s.result.slot in s.pool.workers
                  && (s.result.slot in m.pool.workers ==> m.pool.workers[s.result.slot].alive)
                  && s.pool.workers[s.result.slot].queue == if s.pool.workers[s.result.slot].alive then [job] else [])
  {
    var i := FirstFree(m.pool.slots, free);
    if i < |m.pool.slots| {
      assert WorkerSound(m.pool.workers[m.pool.slots[i]]) && !m.pool.workers[m.pool.slots[i]].busy;
    }
  }

  lemma StepKeepsJobs(limits: Limits, m: Machine, l: Label)
    requires SlotsSound(limits, m) && WorkersSound(m) && JobsSound(m) && Enabled(m, l)
    ensures JobsSound(Next(limits, m, l))
  {
    match l
    case SubmitJob(job, free, spawn) => SubmitKeepsJobs(limits, m, job, free, spawn);
    case Take(id) => TakeKeepsJobs(limits, m, id);
    case _ => QuietStepKeepsJobs(m, Next(limits, m, l));
  }

  lemma SubmitKeepsJobs(limits: Limits, m: Machine, job: JobId, free: set<SlotId>, spawn: Spawn)
    requires SlotsSound(limits, m) && WorkersSound(m) && JobsSound(m) && Enabled(m, SubmitJob(job, free, spawn))
    ensures JobsSound(AfterSubmit(limits, m, job, free, spawn))
  {
    var n := AfterSubmit(limits, m, job, free, spawn);
    var result := Submit(limits, m.pool, job, free, spawn).result;
    SubmitChannels(limits, m, job, free, spawn);
    if result.Accepted? {
      AcceptKeepsJobs(m, n, job, result.slot);
    } else {
      QuietStepKeepsJobs(m, n);
    }
  }

  lemma StepKeepsAccounted(limits: Limits, m: Machine, l: Label)
    requires SlotsSound(limits, m) && WorkersSound(m) && JobsSound(m) && JobsAccounted(m) && Enabled(m, l)
    ensures JobsAccounted(Next(limits, m, l))
  {
    var n := Next(limits, m, l);
    forall j | j in n.accepted ensures Accounted(n, j) {
      match l
      case SubmitJob(job, free, spawn) => SubmitAccounts(limits, m, job, free, spawn, j);
      case Take(id) =>
        assert Accounted(m, j);
        StartedAppend(m.started, Start(m.pool.workers[id].queue[0], id), j);
        assert m.pool.workers[id].queue == [m.pool.workers[id].queue[0]] + m.pool.workers[id].queue[1..];
      case _ => assert Accounted(m, j);
    }
  }

  lemma SubmitAccounts(limits: Limits, m: Machine, job: JobId, free: set<SlotId>, spawn: Spawn, j: JobId)
    requires SlotsSound(limits, m) && WorkersSound(m) && JobsSound(m) && JobsAccounted(m)
             && Enabled(m, SubmitJob(job, free, spawn))
    requires j in AfterSubmit(limits, m, job, free, spawn).accepted
    ensures Accounted(AfterSubmit(limits, m, job, free, spawn), j)
  {
    SubmitChannels(limits, m, job, free, spawn);
    if j != job {
      assert Accounted(m, j);
    }
  }

  // ---------------------------------------------------------------- runs

  ghost predicate StepAt(limits: Limits, machines: seq<Machine>, labels: seq<Label>, i: nat)
    requires i < |labels| && |machines| == |labels| + 1
  {
    Enabled(machines[i], labels[i]) && machines[i + 1] == Next(limits, machines[i], labels[i])
  }

  ghost predicate IsRun(limits: Limits, machines: seq<Machine>, labels: seq<Label>) {
    && |machines| == |labels| + 1
    && machines[0] == InitialMachine()
    && forall i: nat :: i < |labels| ==> StepAt(limits, machines, labels, i)
  }

  ghost predicate Sound(limits: Limits, m: Machine) {
    SlotsSound(limits, m) && WorkersSound(m) && JobsSound(m) && JobsAccounted(m)
  }

  lemma StepKeepsSound(limits: Limits, m: Machine, l: Label)
    requires Sound(limits, m) && Enabled(m, l)
    ensures Sound(limits, Next(limits, m, l))
  {
    StepKeepsSlots(limits, m, l);
    StepKeepsWorkers(limits, m, l);
    StepKeepsJobs(limits, m, l);
    StepKeepsAccounted(limits, m, l);
  }

  lemma {:induction false} RunsAreSound(limits: Limits, machines: seq<Machine>, labels: seq<Label>, n: nat)
    requires IsRun(limits, machines, labels) && n < |machines|
    ensures Sound(limits, machines[n])
  {
    if n > 0 {
      RunsAreSound(limits, machines, labels, n - 1);
      assert StepAt(limits, machines, labels, n - 1);
      StepKeepsSound(limits, machines[n - 1], labels[n - 1]);
    }
  }

  /** Slot ids are distinct, live slots never exceed `max_workers`, and live, retired and dropped slots together
      are the workers ever created, never more than the lifetime budget. */
  lemma PoolStaysInBounds(limits: Limits, machines: seq<Machine>, labels: seq<Label>, n: nat)
    requires IsRun(limits, machines, labels) && n < |machines|
    ensures var m := machines[n];
            && Distinct(m.pool.slots) && |m.pool.slots| <= limits.maxWorkers
            && |m.pool.slots| + m.retired + m.dropped == m.pool.created <= limits.maxLifetime
  {
    RunsAreSound(limits, machines, labels, n);
  }

  /** A slot that is not busy has an empty channel and an idle worker. */
  lemma NotBusyIsIdle(limits: Limits, machines: seq<Machine>, labels: seq<Label>, n: nat, id: SlotId)
    requires IsRun(limits, machines, labels) && n < |machines|
    requires id in machines[n].pool.workers && !machines[n].pool.workers[id].busy
    ensures var w := machines[n].pool.workers[id]; w.queue == [] && w.running == None && !w.responded
  {
    RunsAreSound(limits, machines, labels, n);
    assert WorkerSound(machines[n].pool.workers[id]);
  }

  /** A job starts at most once, and only on the worker it was accepted for, retired or not. */
  lemma JobsStartAtMostOnce(limits: Limits, machines: seq<Machine>, labels: seq<Label>, n: nat, i: nat, j: nat)
    requires IsRun(limits, machines, labels) && n < |machines|
    requires i < |machines[n].started| && j < |machines[n].started|
             && machines[n].started[i].job == machines[n].started[j].job
    ensures i == j
    ensures machines[n].started[i].job in machines[n].accepted
            && machines[n].started[i].slot == machines[n].accepted[machines[n].started[i].job]
  {
    RunsAreSound(limits, machines, labels, n);
  }

  /** No accepted job vanishes: unless its worker died it has started or still waits, in that one channel. */
  lemma AcceptedJobsAreKept(limits: Limits, machines: seq<Machine>, labels: seq<Label>, n: nat, job: JobId)
    requires IsRun(limits, machines, labels) && n < |machines| && job in machines[n].accepted
    ensures var m := machines[n];
            && Accounted(m, job)
            && (forall id :: Waits(m, job, id) ==> id == m.accepted[job] && !HasStarted(m.started, job))
  {
    RunsAreSound(limits, machines, labels, n);
    assert Accounted(machines[n], job);
  }

  // ---------------------------------------------------------------- refusals

  /** In any run, whatever the scan misses, a submission is refused exactly when the slot it found first has a dead
      worker and the lifetime budget is spent, or it found none and the pool is full or the budget spent. A scan that
      misses nothing finds one while some worker is idle and alive. */
  lemma RefusedInRunIff(
    limits: Limits, machines: seq<Machine>, labels: seq<Label>, n: nat, job: JobId, free: set<SlotId>, spawn: Spawn)
    requires IsRun(limits, machines, labels) && n < |machines|
    ensures var p := machines[n].pool;
            var i := FirstFree(p.slots, free);
            && SlotsHaveWorkers(p)
            && (Submit(limits, p, job, free, spawn).result == PoolExhausted
                <==> if i < |p.slots| then !p.workers[p.slots[i]].alive && p.created == limits.maxLifetime
                     else |p.slots| == limits.maxWorkers || p.created == limits.maxLifetime)
            && (free == NotBusy(p) && (exists idle :: IdleLive(p, idle)) ==> i < |p.slots|)
  {
    RunsAreSound(limits, machines, labels, n);
    RefusedIff(limits, machines[n].pool, job, free, spawn);
    var p := machines[n].pool;
    if idle :| free == NotBusy(p) && IdleLive(p, idle) {
      RefusedDespiteIdleIff(limits, p, job, spawn, idle);
    }
  }

  function Last(machines: seq<Machine>): Machine
    requires machines != []
  {
    machines[|machines| - 1]
  }

  lemma Extend(limits: Limits, machines: seq<Machine>, labels: seq<Label>, l: Label)
    requires IsRun(limits, machines, labels) && Enabled(Last(machines), l)
    ensures IsRun(limits, machines + [Next(limits, Last(machines), l)], labels + [l])
  {
    var more, ls := machines + [Next(limits, Last(machines), l)], labels + [l];
    forall i: nat | i < |ls| ensures StepAt(limits, more, ls, i) {
      if i < |labels| {
        assert StepAt(limits, machines, labels, i);
      }
    }
  }

  /** Two workers at a time, two in all. */
  const TWO := Limits(2, 2)
  const HAS_JOB := (job: JobId) => Worker(true, true, true, [job], None, false)
  const IDLE := Worker(true, true, false, [], None, false)

  /** Both workers of a pool of two get a job; the budget is then spent. */
  lemma TwoJobs() returns (machines: seq<Machine>, labels: seq<Label>)
    ensures IsRun(TWO, machines, labels)
    ensures Last(machines)
            == Machine(Pool([0, 1], 2, 2, map[0 := HAS_JOB(0), 1 := HAS_JOB(1)]), 0, 0, {0, 1}, map[0 := 0, 1 := 1], [])
  {
    machines, labels := [InitialMachine()], [];
    var l0 := SubmitJob(0, {}, Ready);
    var m1 := Machine(Pool([0], 1, 1, map[0 := HAS_JOB(0)]), 0, 0, {0}, map[0 := 0], []);
    Extend(TWO, machines, labels, l0);
    assert Next(TWO, InitialMachine(), l0) == m1;
    machines, labels := machines + [m1], labels + [l0];
    var l1 := SubmitJob(1, {}, Ready);
    Extend(TWO, machines, labels, l1);
    assert FirstFree(m1.pool.slots, {}) == 1;
    machines, labels := machines + [Next(TWO, m1, l1)], labels + [l1];
  }

  /** A worker with one job does it and clears its flag. */
  lemma Finish(limits: Limits, machines0: seq<Machine>, labels0: seq<Label>, id: SlotId, job: JobId)
    returns (machines: seq<Machine>, labels: seq<Label>)
    requires IsRun(limits, machines0, labels0)
    requires id in Last(machines0).pool.workers && Last(machines0).pool.workers[id] == HAS_JOB(job)
    ensures IsRun(limits, machines, labels)
    ensures var m := Last(machines0);
            Last(machines) == m.(pool := SetWorker(m.pool, id, IDLE), started := m.started + [Start(job, id)])
  {
    var m := Last(machines0);
    Extend(limits, machines0, labels0, Take(id));
    var m1 := Next(limits, m, Take(id));
    machines, labels := machines0 + [m1], labels0 + [Take(id)];
    Extend(limits, machines, labels, Respond(id));
    var m2 := Next(limits, m1, Respond(id));
    machines, labels := machines + [m2], labels + [Respond(id)];
    Extend(limits, machines, labels, Clear(id));
    var m3 := Next(limits, m2, Clear(id));
    machines, labels := machines + [m3], labels + [Clear(id)];
    assert [job][1..] == [];
    assert m3.pool.workers[id] == IDLE;
    assert m3.pool.workers == m.pool.workers[id := IDLE];
  }

  /** Two workers finish their jobs and the first dies: the next submission is refused although the second is
      idle and alive. */
  lemma AnIdleWorkerIsOverlooked(spawn: Spawn) returns (machines: seq<Machine>, labels: seq<Label>)
    ensures IsRun(TWO, machines, labels) && IdleLive(Last(machines).pool, 1)
    ensures SlotsHaveWorkers(Last(machines).pool)
            && Submit(TWO, Last(machines).pool, 2, NotBusy(Last(machines).pool), spawn).result == PoolExhausted
  {
    machines, labels := TwoJobs();
    machines, labels := Finish(TWO, machines, labels, 0, 0);
    machines, labels := Finish(TWO, machines, labels, 1, 1);
    var m := Last(machines);
    Extend(TWO, machines, labels, Die(0));
    machines, labels := machines + [Next(TWO, m, Die(0))], labels + [Die(0)];
    assert 0 in NotBusy(Last(machines).pool);
  }

  /** Once the lifetime budget is spent a submission is still accepted exactly when the first slot the scan found free
      has a live worker, and goes to that slot; otherwise it is refused. */
  lemma SpentBudgetAcceptsIff(
    limits: Limits, machines: seq<Machine>, labels: seq<Label>, n: nat, job: JobId, free: set<SlotId>, spawn: Spawn)
    requires IsRun(limits, machines, labels) && n < |machines| && machines[n].pool.created == limits.maxLifetime
    ensures SlotsHaveWorkers(machines[n].pool)
    ensures var p := machines[n].pool;
            var i := FirstFree(p.slots, free);
            var r := Submit(limits, p, job, free, spawn).result;
            && (r.Accepted? <==> i < |p.slots| && p.workers[p.slots[i]].alive)
            && (r.Accepted? ==> r.slot == p.slots[i]) && (!r.Accepted? ==> r == PoolExhausted)
  {
    RunsAreSound(limits, machines, labels, n);
  }

  /** The first of two workers finishes its job: with the budget spent the next submission is accepted, by that one. */
  lemma ASpentBudgetStillAccepts(spawn: Spawn) returns (machines: seq<Machine>, labels: seq<Label>)
    ensures IsRun(TWO, machines, labels) && Last(machines).pool.created == TWO.maxLifetime
    ensures SlotsHaveWorkers(Last(machines).pool)
            && Submit(TWO, Last(machines).pool, 2, NotBusy(Last(machines).pool), spawn).result == Accepted(0)
  {
    machines, labels := TwoJobs();
    machines, labels := Finish(TWO, machines, labels, 0, 0);
    assert 0 in NotBusy(Last(machines).pool);
  }
}
