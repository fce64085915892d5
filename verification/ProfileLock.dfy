/** One profile's lock file, and any number of processes that start, crash, take over each other's process ids, open,
    close and delete the profile. Acquiring is one step; each of its file operations may fail. */
module ProfileLock {

  type Pid = nat

  /** A process's life: pids are reused, these are not. */
  type Instance = nat

  datatype Process = Process(pid: Pid, self: Instance)

  /** The file holds a pid. Which life of that pid wrote it is not in the file; the model remembers it. */
  datatype Contents = Absent | Malformed | Written(pid: Pid, writer: Instance)

  /** The file operations that fail this time. */
  datatype Faults = Faults(create: bool, write: bool, read: bool, replace: bool)

  const NO_FAULTS := Faults(false, false, false, false)

  datatype Outcome = Acquired(recovered: bool) | ProfileLocked | PlatformError

  datatype Attempt = Attempt(contents: Contents, outcome: Outcome)

  /** `acquire_profile_lock`. */
  function Acquire(file: Contents, me: Process, alive: map<Pid, Instance>, faults: Faults): Attempt {
    if faults.create then Attempt(file, PlatformError)
    else if file.Absent? then
      if faults.write then Attempt(Malformed, PlatformError) else Attempt(Written(me.pid, me.self), Acquired(false))
    else
      var readable := file.Written? && !faults.read;
      var reentrant := readable && file.pid == me.pid;
      if readable && !reentrant && file.pid in alive then Attempt(file, ProfileLocked)
      else if faults.replace then Attempt(file, PlatformError)
      else Attempt(Written(me.pid, me.self), Acquired(!reentrant))
  }

  class LockFile {
    var contents: Contents

    constructor ()
      ensures contents == Absent
    {
      contents := Absent;
    }

    /** `OpenOptions::create_new(true)`: true if the file was created, empty; false if it was already there. */
    method CreateNew() returns (created: bool)
      modifies this
      ensures created <==> old(contents).Absent?
      ensures contents == if created then Malformed else old(contents)
    {
      created := contents.Absent?;
      if created {
        contents := Malformed;
      }
    }

    method AcquireProfileLock(me: Process, alive: map<Pid, Instance>, faults: Faults) returns (outcome: Outcome)
      modifies this
      ensures Attempt(contents, outcome) == Acquire(old(contents), me, alive, faults)
    {
      if faults.create {
        return PlatformError;
      }
      var created := CreateNew();
      if created {
        if faults.write {
          return PlatformError;
        }
        contents := Written(me.pid, me.self);
        return Acquired(false);
      }
      var reentrant, stale := false, true;
      if contents.Written? && !faults.read {
        reentrant := contents.pid == me.pid;
        stale := reentrant || contents.pid !in alive;
      }
      if !stale {
        return ProfileLocked;
      }
      if faults.replace {
        return PlatformError;
      }
      contents := Written(me.pid, me.self);
      outcome := Acquired(!reentrant);
    }

    /** `release_profile_lock`: a failed removal is swallowed. */
    method ReleaseProfileLock(removed: bool)
      modifies this
      ensures contents == if removed then Absent else old(contents)
    {
      if removed {
        contents := Absent;
      }
    }
  }

  // ---------------------------------------------------------------- one acquisition

  /** `is_locked_by_a_live_process`. */
  predicate LockedByLive(file: Contents, alive: map<Pid, Instance>) {
    file.Written? && file.pid in alive
  }

  /** The process that wrote the file is still running. */
  predicate HolderLives(file: Contents, alive: map<Pid, Instance>) {
    file.Written? && file.pid in alive && alive[file.pid] == file.writer
  }

  predicate Stale(file: Contents, alive: map<Pid, Instance>) {
    file.Malformed? || (file.Written? && !HolderLives(file, alive))
  }

  /** The pid in the file is now another process's. */
  predicate PidReused(file: Contents, alive: map<Pid, Instance>) {
    file.Written? && file.pid in alive && alive[file.pid] != file.writer
  }

  /** The file exists and can be read. */
  predicate Legible(faults: Faults) {
    !faults.create && !faults.read
  }

  /** Whichever file operations fail: a live holder blocks everyone but itself, a dead one blocks exactly when its pid
      has been taken over by a process other than the caller, and neither does if the file cannot be read. What does not
      block is taken, unless an operation fails that the taking needs. */
  lemma BlockedIff(file: Contents, me: Process, alive: map<Pid, Instance>, faults: Faults)
    requires me.pid in alive && alive[me.pid] == me.self
    requires forall p, q :: p in alive && q in alive && alive[p] == alive[q] ==> p == q
    ensures var outcome := Acquire(file, me, alive, faults).outcome;
            && (HolderLives(file, alive) ==>
                  (outcome == ProfileLocked <==> file.writer != me.self && Legible(faults)))
            && (Stale(file, alive) ==>
                  (outcome == ProfileLocked <==> PidReused(file, alive) && file.pid != me.pid && Legible(faults)))
            && (file.Absent? ==> outcome != ProfileLocked)
            && (outcome == PlatformError
                <==> || faults.create
                     || (if file.Absent? then faults.write else outcome != ProfileLocked && faults.replace))
  {}

  /** An acquisition that takes the lock leaves the file naming the caller, and any other leaves it as it was, but for a
      new file whose writing failed. */
  lemma FileNamesTheTaker(file: Contents, me: Process, alive: map<Pid, Instance>, faults: Faults)
    ensures var Attempt(after, outcome) := Acquire(file, me, alive, faults);
            after == if outcome.Acquired? then Written(me.pid, me.self)
                     else if file.Absent? && !faults.create then Malformed
                     else file
  {}

  /** The returned flag is true exactly for a stale recovery, with two exceptions: a stale lock of a dead process whose
      pid the caller now has counts as the caller's own, and a live one that cannot be read, the caller's own included,
      counts as stale. */
  lemma FlagMeansRecoveryIff(file: Contents, me: Process, alive: map<Pid, Instance>, faults: Faults)
    requires me.pid in alive && alive[me.pid] == me.self
    requires Acquire(file, me, alive, faults).outcome.Acquired?
    ensures (Acquire(file, me, alive, faults).outcome.recovered <==> Stale(file, alive))
            <==> if faults.read then !HolderLives(file, alive) else !(PidReused(file, alive) && file.pid == me.pid)
  {}

  /** The holder may acquire again. Whatever fails, the lock is then still its own. */
  lemma HolderReenters(me: Process, alive: map<Pid, Instance>, faults: Faults)
    ensures var own := Written(me.pid, me.self);
            var attempt := Acquire(own, me, alive, faults);
            && attempt.contents == own && attempt.outcome != ProfileLocked
            && (attempt.outcome.Acquired? <==> !faults.create && !faults.replace)
            && (attempt.outcome.Acquired? ==> (attempt.outcome.recovered <==> faults.read))
  {}

  /** A dead process's lock counts as its own for the process that got its pid, and blocks every other. */
  lemma AReusedPidMisleads(file: Contents, alive: map<Pid, Instance>, me: Process, other: Process)
    requires PidReused(file, alive) && me == Process(file.pid, alive[file.pid])
    requires other.pid in alive && other == Process(other.pid, alive[other.pid]) && other.pid != me.pid
    ensures Stale(file, alive)
    ensures Acquire(file, me, alive, NO_FAULTS).outcome == Acquired(false)
    ensures Acquire(file, other, alive, NO_FAULTS).outcome == ProfileLocked
  {}

  // ---------------------------------------------------------------- many processes

  /** `holders` are the lives that acquired the lock and have not released it. */
  datatype Machine = Machine(file: Contents, alive: map<Pid, Instance>, started: nat, holders: set<Instance>)

  datatype Label =
    | Start(pid: Pid)
    | Exit(pid: Pid)          // a crash or an ordinary end, without releasing
    | TryAcquire(pid: Pid, faults: Faults)
    | Release(pid: Pid, removed: bool)
    | Delete(pid: Pid, unreadable: bool, removed: bool)

  predicate Initial(m: Machine) {
    m.alive == map[] && m.started == 0 && m.holders == {} && m.file.Absent?
  }

  /** Whoever closes the profile removes the file, and whoever deletes it may, unless a lock that it can read is in its
      way: neither looks whether the lock is its own. */
  predicate Enabled(m: Machine, l: Label) {
    match l
    case Start(pid) => pid !in m.alive
    case Exit(pid) => pid in m.alive
    case TryAcquire(pid, _) => pid in m.alive
    case Release(pid, _) => pid in m.alive
    case Delete(pid, unreadable, _) => pid in m.alive && (unreadable || !LockedByLive(m.file, m.alive))
  }

  function Next(m: Machine, l: Label): Machine
    requires Enabled(m, l)
  {
    match l
    case Start(pid) => m.(alive := m.alive[pid := m.started], started := m.started + 1)
    case Exit(pid) => m.(alive := m.alive - {pid}, holders := m.holders - {m.alive[pid]})
    case TryAcquire(pid, faults) =>
      var a := Acquire(m.file, Process(pid, m.alive[pid]), m.alive, faults);
      m.(file := a.contents, holders := if a.outcome.Acquired? then m.holders + {m.alive[pid]} else m.holders)
    case Release(pid, removed) =>
      m.(file := if removed then Absent else m.file, holders := m.holders - {m.alive[pid]})
    case Delete(_, _, removed) => m.(file := if removed then Absent else m.file)
  }

  ghost predicate LivesDistinct(m: Machine) {
    && (forall p :: p in m.alive ==> m.alive[p] < m.started)
    && (forall p, q :: p in m.alive && q in m.alive && m.alive[p] == m.alive[q] ==> p == q)
  }

  /** Whoever holds the lock is alive and is the one the file names. */
  ghost predicate Exclusive(m: Machine) {
    forall i :: i in m.holders ==> HolderLives(m.file, m.alive) && m.file.writer == i
  }

  /** Some process other than this one holds the lock. */
  predicate HeldByAnother(m: Machine, pid: Pid)
    requires pid in m.alive
  {
    exists i :: i in m.holders && i != m.alive[pid]
  }

  /** The step takes the lock away from a process that holds it: an acquisition that cannot read the file takes it for
      malformed, a close removes a file that is another's, and a delete removes one that it could not read. */
  predicate Overrides(m: Machine, l: Label)
    requires Enabled(m, l)
  {
    match l
    case TryAcquire(pid, faults) => HeldByAnother(m, pid) && faults.read && !faults.create && !faults.replace
    case Release(pid, removed) => HeldByAnother(m, pid) && removed
    case Delete(_, _, removed) => m.holders != {} && removed
    case _ => false
  }

  lemma StepKeepsLivesDistinct(m: Machine, l: Label)
    requires LivesDistinct(m) && Enabled(m, l)
    ensures LivesDistinct(Next(m, l))
  {}

  /** A step keeps the lock exclusive exactly when it does not override a live holder. */
  lemma StepKeepsExclusiveIff(m: Machine, l: Label)
    requires LivesDistinct(m) && Exclusive(m) && Enabled(m, l)
    ensures Exclusive(Next(m, l)) <==> !Overrides(m, l)
  {
    if Overrides(m, l) {
      var i :| i in m.holders && (l.Delete? || i != m.alive[l.pid]);
      assert i in Next(m, l).holders;
    }
  }

  /** A delete does so only where it could not read the file. */
  lemma ReadableLocksStopDeletes(m: Machine, l: Label)
    requires Exclusive(m) && Enabled(m, l) && l.Delete? && Overrides(m, l)
    ensures l.unreadable
  {
    var i :| i in m.holders;
  }

  // ---------------------------------------------------------------- runs

  ghost predicate StepAt(machines: seq<Machine>, labels: seq<Label>, i: nat)
    requires i < |labels| && |machines| == |labels| + 1
  {
    Enabled(machines[i], labels[i]) && machines[i + 1] == Next(machines[i], labels[i])
  }

  ghost predicate IsRun(machines: seq<Machine>, labels: seq<Label>) {
    && |machines| == |labels| + 1
    && Initial(machines[0])
    && forall i: nat :: i < |labels| ==> StepAt(machines, labels, i)
  }

  ghost predicate OverridesAt(machines: seq<Machine>, labels: seq<Label>, i: nat)
    requires i < |labels| && |machines| == |labels| + 1
  {
    Enabled(machines[i], labels[i]) && Overrides(machines[i], labels[i])
  }

  lemma {:induction false} RunsKeepExclusive(machines: seq<Machine>, labels: seq<Label>, n: nat)
    requires IsRun(machines, labels) && n < |machines|
    requires forall i: nat :: i < n ==> !OverridesAt(machines, labels, i)
    ensures LivesDistinct(machines[n]) && Exclusive(machines[n])
  {
    if n > 0 {
      RunsKeepExclusive(machines, labels, n - 1);
      assert StepAt(machines, labels, n - 1) && !OverridesAt(machines, labels, n - 1);
      StepKeepsLivesDistinct(machines[n - 1], labels[n - 1]);
      StepKeepsExclusiveIff(machines[n - 1], labels[n - 1]);
    }
  }

  /** Two processes never both hold a profile's lock, whichever crash and whenever and whatever file operations fail, as
      long as no step takes the lock from a process that holds it; and whoever holds it is alive. */
  lemma NeverTwoHolders(machines: seq<Machine>, labels: seq<Label>, n: nat, i: Instance, j: Instance)
    requires IsRun(machines, labels) && n < |machines|
    requires forall k: nat :: k < n ==> !OverridesAt(machines, labels, k)
    requires i in machines[n].holders && j in machines[n].holders
    ensures i == j && HolderLives(machines[n].file, machines[n].alive)
  {
    RunsKeepExclusive(machines, labels, n);
  }

  // ---------------------------------------------------------------- two holders

  function Last(machines: seq<Machine>): Machine
    requires machines != []
  {
    machines[|machines| - 1]
  }

  /** A run one step longer. */
  lemma Extend(machines0: seq<Machine>, labels0: seq<Label>, l: Label)
    returns (machines: seq<Machine>, labels: seq<Label>)
    requires IsRun(machines0, labels0) && Enabled(Last(machines0), l)
    ensures IsRun(machines, labels) && Last(machines) == Next(Last(machines0), l) && labels == labels0 + [l]
  {
    machines, labels := machines0 + [Next(Last(machines0), l)], labels0 + [l];
    forall i: nat | i < |labels| ensures StepAt(machines, labels, i) {
      if i < |labels0| {
        assert StepAt(machines0, labels0, i);
      }
    }
  }

  /** Three processes run, and the first has opened the profile. */
  lemma OneHolder() returns (machines: seq<Machine>, labels: seq<Label>)
    ensures IsRun(machines, labels) && labels == [Start(7), Start(8), Start(9), TryAcquire(7, NO_FAULTS)]
    ensures Last(machines) == Machine(Written(7, 0), map[7 := 0, 8 := 1, 9 := 2], 3, {0})
  {
    machines, labels := [Machine(Absent, map[], 0, {})], [];
    machines, labels := Extend(machines, labels, Start(7));
    machines, labels := Extend(machines, labels, Start(8));
    machines, labels := Extend(machines, labels, Start(9));
    machines, labels := Extend(machines, labels, TryAcquire(7, NO_FAULTS));
  }

  /** With one unreadable file two live processes hold the lock at once. */
  lemma AnUnreadableLockIsTakenOver() returns (machines: seq<Machine>, labels: seq<Label>)
    ensures IsRun(machines, labels)
    ensures Last(machines).holders == {0, 1} && Last(machines).alive == map[7 := 0, 8 := 1, 9 := 2]
  {
    machines, labels := OneHolder();
    machines, labels := Extend(machines, labels, TryAcquire(8, NO_FAULTS.(read := true)));
  }

  /** So they do, though nothing fails, when a process that opened the profile twice closes it twice and another opens
      it in between: the second close removes the other's lock, and a third process opens the profile as well. */
  lemma ASecondCloseLetsTwoIn() returns (machines: seq<Machine>, labels: seq<Label>)
    ensures IsRun(machines, labels)
    ensures forall i :: 0 <= i < |labels| ==>
              && !labels[i].Delete? && !labels[i].Exit?
              && (labels[i].TryAcquire? ==> labels[i].faults == NO_FAULTS) && (labels[i].Release? ==> labels[i].removed)
    ensures Last(machines).holders == {1, 2} && Last(machines).alive == map[7 := 0, 8 := 1, 9 := 2]
  {
    machines, labels := OneHolder();
    machines, labels := Extend(machines, labels, TryAcquire(7, NO_FAULTS));
    machines, labels := Extend(machines, labels, Release(7, true));
    machines, labels := Extend(machines, labels, TryAcquire(8, NO_FAULTS));
    machines, labels := Extend(machines, labels, Release(7, true));
    machines, labels := Extend(machines, labels, TryAcquire(9, NO_FAULTS));
  }

  /** And when a delete cannot read the lock of the process that holds it, and removes it but not the profile. */
  lemma ADeleteLetsTwoIn() returns (machines: seq<Machine>, labels: seq<Label>)
    ensures IsRun(machines, labels)
    ensures Last(machines).holders == {0, 1} && Last(machines).alive == map[7 := 0, 8 := 1, 9 := 2]
  {
    machines, labels := OneHolder();
    machines, labels := Extend(machines, labels, Delete(9, true, true));
    machines, labels := Extend(machines, labels, TryAcquire(8, NO_FAULTS));
  }
}
