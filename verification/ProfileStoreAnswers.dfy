/** What each call of the store answers and leaves, said of the folder before and after it and of nothing else. */
module ProfileStoreAnswers {
  import opened Wrappers
  import opened Json
  import opened ProfileNames
  import opened ProfileStore
  import ProfileLock

  /** The other directories are as they were. */
  ghost predicate OthersUnchanged(f: Folder, g: Folder, names: set<string>) {
    forall k :: k !in names ==> (k in g <==> k in f) && (k in f ==> g[k] == f[k])
  }

  // ---------------------------------------------------------------- opening

  /** The directory holds the record of an active profile. */
  predicate IsActive(f: Folder, dir: string) {
    dir in f && f[dir].metadata.Good? && f[dir].metadata.record.state.Active?
  }

  /** A lock that can be read and names a live process other than this one. */
  predicate HeldElsewhere(lock: ProfileLock.Contents, host: Host, faults: ProfileLock.Faults) {
    lock.Written? && !faults.create && !faults.read && lock.pid in host.alive && lock.pid != host.me.pid
  }

  /** A file operation that taking this lock needs fails. */
  predicate TakingFails(lock: ProfileLock.Contents, faults: ProfileLock.Faults) {
    faults.create || (if lock.Absent? then faults.write else faults.replace)
  }

  /** Opening succeeds exactly for an active profile whose lock no other live process is read to hold, when no file
      operation fails that taking the lock or finding the data directory needs. It then has the lock, and the record the
      time, if that could be written; and each other answer has its one reason and leaves the folder as it was but for a
      lock file left half-written, or a lock taken before the data directory was not found. */
  lemma OpenAnswers(f: Folder, call: Call)
    requires call.op.Open?
    ensures var (g, reply) := Run(f, call);
            var dir, host, faults := DirectoryName(call.op.profile), call.host, call.op.openFaults;
            && (reply == Done
                <==> IsActive(f, dir) && !HeldElsewhere(f[dir].lock, host, faults.lock)
                     && !TakingFails(f[dir].lock, faults.lock) && !faults.pathFails)
            && (reply == Failed(NotFound)
                <==> dir !in f || f[dir].metadata.Missing? || (f[dir].metadata.Good? && !IsActive(f, dir)))
            && (reply == Failed(Corrupted) <==> dir in f && f[dir].metadata.Corrupt?)
            && (reply == Failed(Locked) <==> IsActive(f, dir) && HeldElsewhere(f[dir].lock, host, faults.lock))
            && (reply == Failed(Platform)
                <==> IsActive(f, dir) && !HeldElsewhere(f[dir].lock, host, faults.lock)
                     && TakingFails(f[dir].lock, faults.lock))
            && (reply == Failed(StorageUnavailable)
                <==> IsActive(f, dir) && !HeldElsewhere(f[dir].lock, host, faults.lock)
                     && !TakingFails(f[dir].lock, faults.lock) && faults.pathFails)
            && OthersUnchanged(f, g, {dir})
            && (reply in {Failed(NotFound), Failed(Corrupted), Failed(Locked)} ==> g == f)
            && (reply == Failed(Platform) ==>
                  && dir in g && g[dir].metadata == f[dir].metadata
                  && g[dir].lock == if !faults.lock.create && f[dir].lock.Absent? then ProfileLock.Malformed
                                    else f[dir].lock)
            && (reply == Done || reply == Failed(StorageUnavailable) ==>
                  && dir in g && g[dir].lock == ProfileLock.Written(host.me.pid, host.me.self)
                  && IsActive(g, dir)
                  && SameButOpened(f[dir].metadata.record, g[dir].metadata.record)
                  && g[dir].metadata.record.lastOpenedAt
                     == if faults.touchFails then f[dir].metadata.record.lastOpenedAt else Some(call.now))
  {
    var dir := DirectoryName(call.op.profile);
    if dir in f {
      assert f[dir := f[dir]] == f;
    }
  }

  /** The same record but for the time it was last opened. */
  predicate SameButOpened(r: Record, s: Record) {
    r.profileId == s.profileId && r.displayName == s.displayName && r.createdAt == s.createdAt && r.state == s.state
  }

  // ---------------------------------------------------------------- creating and renaming

  /** Creating answers with the generated id exactly when it is free and no step fails; a new, active record of that
      name is then there, unlocked. Otherwise at most an empty directory is left. */
  lemma CreateAnswers(f: Folder, call: Call)
    requires call.op.Create? && |call.op.bytes| == 16
    ensures var (g, reply) := Run(f, call);
            var id, fault := GeneratedId(call.op.bytes), call.op.fault;
            && (reply.Created? <==> id !in f && fault.NoFault?)
            && (reply.Created? ==>
                  && reply.id == id && id in g && g[id].lock.Absent? && IsActive(g, id)
                  && g[id].metadata.record.profileId == id && g[id].metadata.record.displayName == call.op.name
                  && g[id].metadata.record.createdAt == call.now && g[id].metadata.record.lastOpenedAt == None)
            && (reply == Failed(AlreadyExists) <==> id in f)
            && (reply == Failed(Platform) <==> id !in f && (fault.NoUser? || fault.Acl?))
            && (reply == Failed(StorageUnavailable) <==> id !in f && (fault.MakeDirectory? || fault.WriteRecord?))
            && OthersUnchanged(f, g, {id})
            && (!reply.Created? && id !in f ==>
                  && (id in g <==> fault.WriteRecord? || (fault.Acl? && !fault.removed))
                  && (id in g ==> g[id].metadata.Missing? && g[id].lock.Absent?))
            && (id in f ==> g == f)
  {
    GeneratedIsClean(call.op.bytes);
  }

  /** Renaming succeeds exactly for a readable record that can be written, whatever its state, and changes its name and
      nothing else. */
  lemma RenameAnswers(f: Folder, call: Call)
    requires call.op.Rename?
    ensures var (g, reply) := Run(f, call);
            var dir := DirectoryName(call.op.profile);
            && (reply == Done <==> dir in f && f[dir].metadata.Good? && !call.op.writeFails)
            && (reply == Failed(Corrupted) <==> !(dir in f && f[dir].metadata.Good?))
            && (reply == Failed(StorageUnavailable) <==> dir in f && f[dir].metadata.Good? && call.op.writeFails)
            && OthersUnchanged(f, g, {dir}) && (reply != Done ==> g == f)
            && (reply == Done ==>
                  && dir in g && g[dir].lock == f[dir].lock && g[dir].metadata.Good?
                  && var r, s := f[dir].metadata.record, g[dir].metadata.record;
                     && s.displayName == call.op.newName && s.profileId == r.profileId && s.createdAt == r.createdAt
                     && s.lastOpenedAt == r.lastOpenedAt && s.state == r.state)
  {}

  // ---------------------------------------------------------------- closing and deleting

  lemma CloseAnswers(f: Folder, call: Call)
    requires call.op.Close?
    ensures var (g, reply) := Run(f, call);
            var dir := DirectoryName(call.op.profile);
            && reply == Done && g.Keys == f.Keys && OthersUnchanged(f, g, {dir})
            && (dir in f ==>
                  && g[dir].metadata == f[dir].metadata
                  && g[dir].lock == if call.op.removed then ProfileLock.Absent else f[dir].lock)
  {}

  /** The record is readable and can be marked. */
  predicate IsMarked(d: Dir, faults: DeleteFaults) {
    d.metadata.Good? && !faults.markFails
  }

  /** One of the attempts to move the directory succeeds. */
  predicate IsMoved(f: Folder, to: string, faults: DeleteFaults) {
    to !in f && exists i :: 0 <= i < |faults.renames| && faults.renames[i]
  }

  /** What is left of a directory by a removal that may take its record and its lock, and by the mark before it. */
  predicate Remains(before: Dir, after: Dir, faults: DeleteFaults) {
    && faults.removal.Part?
    && after.lock == (if faults.removal.lock then ProfileLock.Absent else before.lock)
    && if faults.removal.record then after.metadata.Missing?
       else if IsMarked(before, faults) then Pending(before.metadata.record, after.metadata)
       else after.metadata == before.metadata
  }

  /** The record with its state turned to PendingDeletion. */
  predicate Pending(before: Record, after: Metadata) {
    after.Good? && after.record.state.PendingDeletion? && after.record.(state := before.state) == before
  }

  /** Deleting is refused for a directory that is not there, and for one whose lock can be read and names a live
      process, this one included; the folder is then as it was. Otherwise it is done: the directory is gone from its
      name if it could be moved, with what was not removed of it under the new name; if it could not, a marked record
      stays with the rest, so that it is not listed, and an unmarked directory is removed as far as that goes. */
  lemma DeleteAnswers(f: Folder, call: Call)
    requires call.op.Delete? && |call.op.faults.renames| == 20
    ensures WellFormed(call)
    ensures var (g, reply) := Run(f, call);
            var dir, faults := DirectoryName(call.op.profile), call.op.faults;
            var to := dir + "-deleted-" + Decimal(call.now);
            && (reply == Failed(NotFound) <==> dir !in f)
            && (reply == Failed(Locked)
                <==> dir in f && f[dir].lock.Written? && f[dir].lock.pid in call.host.alive && !faults.lockUnreadable)
            && (reply == Done || reply == Failed(NotFound) || reply == Failed(Locked))
            && (reply != Done ==> g == f)
            && OthersUnchanged(f, g, {dir, to})
            && (reply == Done && IsMoved(f, to, faults) ==>
                  && dir !in g && (to in g <==> !faults.removal.All?)
                  && (to in g ==> Remains(f[dir], g[to], faults)))
            && (reply == Done && !IsMoved(f, to, faults) ==>
                  && (to in g <==> to in f) && (to in f ==> g[to] == f[to])
                  && if IsMarked(f[dir], faults) then
                       dir in g && g[dir].lock == f[dir].lock && Pending(f[dir].metadata.record, g[dir].metadata)
                     else (dir in g <==> !faults.removal.All?) && (dir in g ==> Remains(f[dir], g[dir], faults)))
  {
    var dir, faults := DirectoryName(call.op.profile), call.op.faults;
    var to := dir + "-deleted-" + Decimal(call.now);
    assert to == QuarantinedName(dir, call.now);
    assert |to| > |dir|;
    assert Moves(f, dir, call.now, faults) <==> IsMoved(f, to, faults);
  }

  // ---------------------------------------------------------------- listing

  /** A directory is listed only under a name that begins with "profile-" and holds no "-deleted-": as the profile its
      record tells while that is active, in use exactly when its lock names a live process, and as corrupted when the
      record cannot be read. */
  lemma ListAnswers(name: string, d: Dir, host: Host, e: Entry)
    ensures Shown(name, d, host) == Some(e)
            <==> && (exists rest :: name == "profile-" + rest)
                 && !(exists before, after :: name == before + "-deleted-" + after)
                 && match e
                    case Profile(id, displayName, locked) =>
                      && d.metadata.Good? && d.metadata.record.state.Active?
                      && id == d.metadata.record.profileId && displayName == d.metadata.record.displayName
                      && (locked <==> d.lock.Written? && d.lock.pid in host.alive)
                    case CorruptedProfile(id) => !d.metadata.Good? && id == name
  {
    RecognizedMeans(name);
  }
}
