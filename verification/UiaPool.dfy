/** `UiaWorkerPool`: a bounded set of worker threads handed out without a queue. */
module UiaPool {
  import opened Wrappers

  type SlotId = nat
  type JobId = nat

  /** A worker thread, its busy flag and its job channel. `connected` says that the pool still has the sender. */
  datatype Worker = Worker(
    alive: bool,
    connected: bool,
    busy: bool,
    queue: seq<JobId>,
    running: Option<JobId>,
    responded: bool)         // the outcome is sent, the busy flag not yet cleared

  datatype Pool = Pool(slots: seq<SlotId>, nextId: nat, created: nat, workers: map<SlotId, Worker>)

  datatype Limits = Limits(maxWorkers: nat, maxLifetime: nat)

  /** How the creation of a worker ends: ready, ready and then dead before its first job, or no handshake. */
  datatype Spawn = Ready | ReadyThenDead | NoHandshake

  datatype Result = Accepted(slot: SlotId) | PoolExhausted | ComFailure

  datatype Submission = Submission(pool: Pool, result: Result)

  /** The index of the first slot that `free` holds of, or the number of slots. */
  function FirstFree(slots: seq<SlotId>, free: set<SlotId>): (i: nat)
    ensures i <= |slots|
    ensures i < |slots| ==> slots[i] in free
    ensures forall j :: 0 <= j < i ==> slots[j] !in free
  {
    if |slots| == 0 || slots[0] in free then 0 else 1 + FirstFree(slots[1..], free)
  }

  function RemoveAt(slots: seq<SlotId>, i: nat): seq<SlotId>
    requires i < |slots|
  {
    slots[..i] + slots[i + 1..]
  }

  ghost predicate SlotsHaveWorkers(p: Pool) {
    forall i :: 0 <= i < |p.slots| ==> p.slots[i] in p.workers
  }

  function NotBusy(p: Pool): set<SlotId>
  {
    set id | id in p.workers && !p.workers[id].busy
  }

  /** A worker that could take a job now. */
  predicate IdleLive(p: Pool, id: SlotId) {
    id in p.slots && id in p.workers && p.workers[id].alive && !p.workers[id].busy
  }

  /** `submit`: `free` is the set of slots the scan found not busy. */
  function Submit(limits: Limits, p: Pool, job: JobId, free: set<SlotId>, spawn: Spawn): Submission
    requires SlotsHaveWorkers(p)
  {
    var i := FirstFree(p.slots, free);
    if i < |p.slots| then
      var id := p.slots[i];
      var w := p.workers[id].(busy := true);
      if w.alive then Submission(p.(workers := p.workers[id := w.(queue := w.queue + [job])]), Accepted(id))
      else
        Grow(limits, p.(slots := RemoveAt(p.slots, i), workers := p.workers[id := w.(connected := false)]), job, spawn)
    else Grow(limits, p, job, spawn)
  }

  function Grow(limits: Limits, p: Pool, job: JobId, spawn: Spawn): Submission {
    if |p.slots| >= limits.maxWorkers || p.created >= limits.maxLifetime then Submission(p, PoolExhausted)
    else
      var id := p.nextId;
      match spawn
      case NoHandshake => Submission(p.(nextId := id + 1), ComFailure)
      case Ready => Submission(Grown(p, Worker(true, true, true, [job], None, false)), Accepted(id))
      case ReadyThenDead => Submission(Grown(p, Worker(false, true, true, [], None, false)), Accepted(id))
  }

  function Grown(p: Pool, w: Worker): Pool {
    Pool(p.slots + [p.nextId], p.nextId + 1, p.created + 1, p.workers[p.nextId := w])
  }

  function Without(slots: seq<SlotId>, id: SlotId): (r: seq<SlotId>)
    ensures forall x :: x in r <==> x in slots && x != id
    ensures |r| <= |slots|
    ensures id !in slots ==> r == slots
  {
    if |slots| == 0 then []
    else if slots[0] == id then Without(slots[1..], id)
    else [slots[0]] + Without(slots[1..], id)
  }

  /** `retire`: the slot goes, and its sender with it; the thread is left alone. */
  function Retire(p: Pool, id: SlotId): Pool
    requires SlotsHaveWorkers(p)
  {
    if id in p.slots then
      p.(slots := Without(p.slots, id), workers := p.workers[id := p.workers[id].(connected := false)])
    else p
  }

  // ---------------------------------------------------------------- the pool as an object

  class UiaWorkerPool {
    const limits: Limits
    var slots: seq<SlotId>
    var nextSlotId: nat
    var totalCreated: nat
    var workers: map<SlotId, Worker>   // the threads, with the flags and channels they share with the slots

    function State(): Pool
      reads this
    {
      Pool(slots, nextSlotId, totalCreated, workers)
    }

    constructor (maxWorkers: nat, maxLifetimeCreations: nat)
      ensures limits == Limits(maxWorkers, maxLifetimeCreations)
      ensures State() == Pool([], 0, 0, map[])
    {
      limits := Limits(maxWorkers, maxLifetimeCreations);
      slots, nextSlotId, totalCreated, workers := [], 0, 0, map[];
    }

    /** `slots.iter().position(|s| !s.busy.load())`. */
    method FindIdle() returns (i: nat)
      requires SlotsHaveWorkers(State())
      ensures i == FirstFree(slots, NotBusy(State()))
    {
      i := 0;
      while i < |slots| && workers[slots[i]].busy
        invariant i <= |slots| && forall j :: 0 <= j < i ==> slots[j] !in NotBusy(State())
      {
        i := i + 1;
      }
      FirstFreeIs(slots, NotBusy(State()), i);
    }

    /** Under the pool's mutex; the scan stops at the first slot that is not busy. */
    method SubmitJob(job: JobId, spawn: Spawn) returns (result: Result)
      requires SlotsHaveWorkers(State())
      modifies this
      ensures Submission(State(), result) == Submit(limits, old(State()), job, NotBusy(old(State())), spawn)
    {
      var i := FindIdle();
      if i < |slots| {
        var id := slots[i];
        var w := workers[id].(busy := true);
        if w.alive {
          workers := workers[id := w.(queue := w.queue + [job])];
          return Accepted(id);
        }
        workers := workers[id := w.(connected := false)];
        slots := slots[..i] + slots[i + 1..];
      }
      result := GrowFor(job, spawn);
    }

    /** The rest of `submit`, with `spawn_and_warm_up_one_worker`. */
    method GrowFor(job: JobId, spawn: Spawn) returns (result: Result)
      modifies this
      ensures Submission(State(), result) == Grow(limits, old(State()), job, spawn)
    {
      if |slots| >= limits.maxWorkers {
        return PoolExhausted;
      }
      if totalCreated >= limits.maxLifetime {
        return PoolExhausted;
      }
      var id := nextSlotId;
      nextSlotId := nextSlotId + 1;
      if spawn == NoHandshake {
        return ComFailure;
      }
      totalCreated := totalCreated + 1;
      var alive := spawn == Ready;
      workers := workers[id := Worker(alive, true, true, if alive then [job] else [], None, false)];
      slots := slots + [id];
      result := Accepted(id);
    }

    method RetireSlot(id: SlotId)
      requires SlotsHaveWorkers(State())
      modifies this`slots, this`workers
      ensures State() == Retire(old(State()), id)
    {
      if id in slots {
        workers := workers[id := workers[id].(connected := false)];
      }
      slots := Retain(slots, id);
    }
  }

  /** `slots.retain(|s| s.id != id)`. */
  method Retain(slots: seq<SlotId>, id: SlotId) returns (kept: seq<SlotId>)
    ensures kept == Without(slots, id)
  {
    kept := [];
    var i := 0;
    while i < |slots|
      invariant i <= |slots| && kept == Without(slots[..i], id)
    {
      WithoutAppend(slots[..i], slots[i], id);
      assert slots[..i] + [slots[i]] == slots[..i + 1];
      if slots[i] != id {
        kept := kept + [slots[i]];
      }
      i := i + 1;
    }
    assert slots[..i] == slots;
  }

  lemma {:induction false} WithoutAppend(slots: seq<SlotId>, last: SlotId, id: SlotId)
    ensures Without(slots + [last], id) == Without(slots, id) + if last == id then [] else [last]
  {
    if |slots| == 0 {
      assert slots + [last] == [last] && [last][1..] == [];
    } else {
      assert (slots + [last])[1..] == slots[1..] + [last];
      WithoutAppend(slots[1..], last, id);
    }
  }

  lemma {:induction false} FirstFreeIs(slots: seq<SlotId>, free: set<SlotId>, i: nat)
    requires i <= |slots| && forall j :: 0 <= j < i ==> slots[j] !in free
    requires i < |slots| ==> slots[i] in free
    ensures FirstFree(slots, free) == i
  {}

  // ---------------------------------------------------------------- refusals

  /** When `submit` refuses: nothing was found free and the pool cannot grow, or the one slot it picked was
      dead and no creation is left. It never tries a second slot. */
  lemma RefusedIff(limits: Limits, p: Pool, job: JobId, free: set<SlotId>, spawn: Spawn)
    requires SlotsHaveWorkers(p) && |p.slots| <= limits.maxWorkers
    ensures var i := FirstFree(p.slots, free);
            Submit(limits, p, job, free, spawn).result == PoolExhausted
            <==> if i < |p.slots| then !p.workers[p.slots[i]].alive && p.created >= limits.maxLifetime
                 else |p.slots| == limits.maxWorkers || p.created >= limits.maxLifetime
  {}

  /** While some worker is idle and alive, `submit` refuses exactly when the first slot that is not busy has a
      dead worker and the lifetime budget is spent. */
  lemma RefusedDespiteIdleIff(limits: Limits, p: Pool, job: JobId, spawn: Spawn, idle: SlotId)
    requires SlotsHaveWorkers(p) && |p.slots| <= limits.maxWorkers && IdleLive(p, idle)
    ensures var i := FirstFree(p.slots, NotBusy(p));
            && i < |p.slots|
            && (Submit(limits, p, job, NotBusy(p), spawn).result == PoolExhausted
                <==> !p.workers[p.slots[i]].alive && p.created >= limits.maxLifetime)
  {}

  // ---------------------------------------------------------------- who gets the job

  /** The slot the scan found first. */
  ghost predicate FoundFirst(p: Pool, free: set<SlotId>, i: nat) {
    i < |p.slots| && p.slots[i] in free && forall j :: 0 <= j < i ==> p.slots[j] !in free
  }

  /** Whatever the limits and however a creation would end: the first slot found free, if its worker lives, gets the
      job, at the end of its channel, and nothing else changes; in particular nothing is created. */
  lemma IdleWorkerGetsTheJob(limits: Limits, p: Pool, job: JobId, free: set<SlotId>, spawn: Spawn, i: nat)
    requires SlotsHaveWorkers(p) && FoundFirst(p, free, i) && p.workers[p.slots[i]].alive
    ensures var s := Submit(limits, p, job, free, spawn);
            var w := p.workers[p.slots[i]];
            && s.result == Accepted(p.slots[i])
            && s.pool.slots == p.slots && s.pool.nextId == p.nextId && s.pool.created == p.created
            && s.pool.workers == p.workers[p.slots[i] := w.(busy := true, queue := w.queue + [job])]
  {
    FirstFreeIs(p.slots, free, i);
  }

  /** A creation is tried exactly when no slot was found free or the one found has a dead worker, which then leaves the
      pool, and there is room and budget. It uses up an id, and if the worker reports ready, a unit of the budget; that
      worker takes the last slot and the job, which is lost with it if it is dead by then. */
  lemma OthersCreateAWorker(limits: Limits, p: Pool, job: JobId, free: set<SlotId>, spawn: Spawn, i: nat)
    requires SlotsHaveWorkers(p)
    requires if i < |p.slots| then FoundFirst(p, free, i) && !p.workers[p.slots[i]].alive
             else i == |p.slots| && forall j :: 0 <= j < i ==> p.slots[j] !in free
    ensures var s := Submit(limits, p, job, free, spawn);
            var rest := if i < |p.slots| then p.slots[..i] + p.slots[i + 1..] else p.slots;
            var room := |rest| < limits.maxWorkers && p.created < limits.maxLifetime;
            && (s.result == PoolExhausted <==> !room)
            && (s.result == ComFailure <==> room && spawn == NoHandshake)
            && (s.result.Accepted? <==> room && spawn != NoHandshake)
            && (s.result.Accepted? ==> s.result.slot == p.nextId)
            && s.pool.slots == (if s.result.Accepted? then rest + [p.nextId] else rest)
            && s.pool.nextId == p.nextId + (if room then 1 else 0)
            && s.pool.created == p.created + (if s.result.Accepted? then 1 else 0)
            && (s.result.Accepted? ==>
                  && p.nextId in s.pool.workers && s.pool.workers[p.nextId].busy
                  && s.pool.workers[p.nextId].alive == (spawn == Ready)
                  && s.pool.workers[p.nextId].queue == if spawn == Ready then [job] else [])
            && (forall id :: id in p.workers && id != p.nextId ==>
                  && id in s.pool.workers
                  && s.pool.workers[id] == if i < |p.slots| && id == p.slots[i]
                                           then p.workers[id].(busy := true, connected := false) else p.workers[id])
  {
    FirstFreeIs(p.slots, free, i);
  }

  lemma {:induction false} WithoutOne(slots: seq<SlotId>, i: nat)
    requires i < |slots| && slots[i] !in slots[..i] && slots[i] !in slots[i + 1..]
    ensures Without(slots, slots[i]) == slots[..i] + slots[i + 1..]
  {
    if i == 0 {
      assert slots == [slots[0]] + slots[1..];
    } else {
      assert slots[1..][..i - 1] == slots[..i][1..] && slots[1..][i..] == slots[i + 1..];
      WithoutOne(slots[1..], i - 1);
      assert slots[..i] == [slots[0]] + slots[1..][..i - 1];
    }
  }

  /** Retiring takes one slot away, leaves the others in order, and closes that slot's channel and nothing else: what
      its worker has, it keeps. */
  lemma RetireTakesTheSlot(p: Pool, i: nat)
    requires SlotsHaveWorkers(p) && i < |p.slots| && p.slots[i] !in p.slots[..i] && p.slots[i] !in p.slots[i + 1..]
    ensures var q := Retire(p, p.slots[i]);
            && q.slots == p.slots[..i] + p.slots[i + 1..] && q.nextId == p.nextId && q.created == p.created
            && q.workers == p.workers[p.slots[i] := p.workers[p.slots[i]].(connected := false)]
  {
    WithoutOne(p.slots, i);
  }
}
