/** The store over any sequence of calls: what is listed is what was created and not deleted, tenant by
    tenant, and a deleted profile stays deleted. */
module ProfileStoreRuns {
  import opened Wrappers
  import opened ProfileNames
  import opened ProfileStore
  import ProfileLock

  /** The profiles a folder lists as intact, with their names. */
  function Names(f: Folder): map<string, string> {
    map k | k in f && Recognized(k) && f[k].metadata.Good? && f[k].metadata.record.state == Active
      :: f[k].metadata.record.displayName
  }

  /** A listed record carries its directory's name. */
  predicate RecordsNamed(f: Folder) {
    forall k :: k in f && Recognized(k) && f[k].metadata.Good? ==> f[k].metadata.record.profileId == k
  }

  // ---------------------------------------------------------------- the simple map

  /** What a call that got this reply does to the map of a tenant's profiles. */
  function Meaning(names: map<string, string>, op: Op, reply: Reply): map<string, string> {
    match (op, reply)
    case (Create(_, name, _), Created(id)) => names[id := name]
    case (Rename(profile, newName, _), Done) =>
      if DirectoryName(profile) in names then names[DirectoryName(profile) := newName] else names
    case (Delete(profile, _), Done) => names - {DirectoryName(profile)}
    case _ => names
  }

  /** A delete that was not refused marked the profile, moved it, found it not listed, or removed at least its
      record. */
  predicate Hides(f: Folder, call: Call) {
    call.op.Delete? ==>
      var dir, faults := DirectoryName(call.op.profile), call.op.faults;
      || dir !in f
      || (LockedByLive(f[dir].lock, call.host) && !faults.lockUnreadable)
      || Marks(f[dir], faults) || Moves(f, dir, call.now, faults) || dir !in Names(f) || TakesRecord(faults.removal)
  }

  // ---------------------------------------------------------------- one operation

  lemma CreateRefines(f: Folder, bytes: seq<Byte>, name: string, now: nat, fault: CreateFault)
    requires RecordsNamed(f) && |bytes| == 16
    ensures var (g, r) := CreateIn(f, GeneratedId(bytes), name, now, fault);
            && RecordsNamed(g)
            && (r.Ok? ==> r.value == GeneratedId(bytes) && r.value !in f && Names(g) == Names(f)[r.value := name])
            && (r.Err? ==> Names(g) == Names(f))
  {
    GeneratedIsRecognized(bytes);
  }

  lemma RenameRefines(f: Folder, dir: string, name: string, writeFails: bool)
    requires RecordsNamed(f)
    ensures var (g, r) := RenameIn(f, dir, name, writeFails);
            && RecordsNamed(g)
            && Names(g) == if r.Ok? && dir in Names(f) then Names(f)[dir := name] else Names(f)
  {}

  /** Rewriting a directory without changing who it is, its name or its state. */
  lemma TouchKeepsNames(f: Folder, dir: string, d: Dir)
    requires RecordsNamed(f) && dir in f && f[dir].metadata.Good? == d.metadata.Good?
    requires d.metadata.Good? ==>
      f[dir].metadata.record == d.metadata.record.(lastOpenedAt := f[dir].metadata.record.lastOpenedAt)
    ensures RecordsNamed(f[dir := d]) && Names(f[dir := d]) == Names(f)
  {}

  lemma OpenKeepsNames(f: Folder, dir: string, host: Host, now: nat, faults: OpenFaults)
    requires RecordsNamed(f)
    ensures var (g, r) := OpenIn(f, dir, host, now, faults);
            && RecordsNamed(g) && Names(g) == Names(f)
            && (r.Ok? ==> dir in f && f[dir].metadata.Good? && f[dir].metadata.record.state == Active)
  {
    var g := OpenIn(f, dir, host, now, faults).0;
    if dir in f && f[dir].metadata.Good? && f[dir].metadata.record.state == Active {
      TouchKeepsNames(f, dir, g[dir]);
    }
  }

  lemma CloseKeepsNames(f: Folder, dir: string, removed: bool)
    requires RecordsNamed(f)
    ensures RecordsNamed(CloseIn(f, dir, removed)) && Names(CloseIn(f, dir, removed)) == Names(f)
  {}

  /** After a delete that was not refused the profile is off the list exactly when it was marked or moved, or was
      not listed anyway, or the removal at least took its record. */
  lemma DeleteHidesIff(f: Folder, dir: string, host: Host, now: nat, faults: DeleteFaults)
    requires |faults.renames| == RENAME_ATTEMPTS
    requires DeleteIn(f, dir, host, now, faults).1.Ok?
    ensures dir in f
    ensures Names(DeleteIn(f, dir, host, now, faults).0) == Names(f) - {dir}
            <==> Marks(f[dir], faults) || Moves(f, dir, now, faults) || dir !in Names(f) || TakesRecord(faults.removal)
  {
    QuarantinedIsNotRecognized(dir, now);
    var g := DeleteIn(f, dir, host, now, faults).0;
    forall k | k != dir ensures k in Names(g) <==> k in Names(f) {}
    if Marks(f[dir], faults) || Moves(f, dir, now, faults) || dir !in Names(f) || TakesRecord(faults.removal) {
      assert dir !in Names(g);
    } else {
      assert dir in Names(g);
    }
  }

  /** When every file operation fails, delete still says it is done, and the profile is listed as before. */
  lemma ADeleteThatDidNothing(f: Folder, dir: string, host: Host, now: nat)
    requires dir in f && !LockedByLive(f[dir].lock, host)
    ensures DeleteIn(f, dir, host, now, DeleteFaults(false, true, seq(RENAME_ATTEMPTS, _ => false), NONE_REMOVED))
            == (f, Ok(()))
  {
    assert f[dir := f[dir]] == f;
  }

  lemma DeleteKeepsRecordsNamed(f: Folder, dir: string, host: Host, now: nat, faults: DeleteFaults)
    requires |faults.renames| == RENAME_ATTEMPTS && RecordsNamed(f)
    ensures RecordsNamed(DeleteIn(f, dir, host, now, faults).0)
    ensures DeleteIn(f, dir, host, now, faults).1.Err? ==> DeleteIn(f, dir, host, now, faults).0 == f
  {
    QuarantinedIsNotRecognized(dir, now);
  }

  /** Any call changes the listed profiles as its reply says, exactly when it is not a delete that failed throughout. */
  lemma RunRefinesIff(f: Folder, call: Call)
    requires WellFormed(call) && RecordsNamed(f)
    ensures var (g, reply) := Run(f, call);
            RecordsNamed(g) && (Names(g) == Meaning(Names(f), call.op, reply) <==> Hides(f, call))
  {
    match call.op
    case Create(bytes, name, fault) =>
      GeneratedIsClean(bytes);
      CreateRefines(f, bytes, name, call.now, fault);
    case Rename(profile, name, writeFails) => RenameRefines(f, DirectoryName(profile), name, writeFails);
    case Open(profile, faults) => OpenKeepsNames(f, DirectoryName(profile), call.host, call.now, faults);
    case Close(profile, removed) => CloseKeepsNames(f, DirectoryName(profile), removed);
    case Delete(profile, faults) => DeleteRefinesIff(f, call);
    case List =>
  }

  lemma DeleteRefinesIff(f: Folder, call: Call)
    requires WellFormed(call) && RecordsNamed(f) && call.op.Delete?
    ensures var (g, reply) := Run(f, call);
            RecordsNamed(g) && (Names(g) == Meaning(Names(f), call.op, reply) <==> Hides(f, call))
  {
    var dir, faults := DirectoryName(call.op.profile), call.op.faults;
    DeleteKeepsRecordsNamed(f, dir, call.host, call.now, faults);
    if DeleteIn(f, dir, call.host, call.now, faults).1.Ok? {
      DeleteHidesIff(f, dir, call.host, call.now, faults);
    }
  }

  // ---------------------------------------------------------------- histories

  /** A call of some tenant, or a start of the program. */
  datatype Event = Called(call: Call) | Started(moved: bool)

  function After(root: Root, e: Event): Root
    requires e.Called? ==> WellFormed(e.call)
  {
    match e
    case Called(call) => Step(root, call).0
    case Started(moved) => Restart(root, moved)
  }

  ghost predicate StepAt(roots: seq<Root>, events: seq<Event>, i: nat)
    requires i < |events| && |roots| == |events| + 1
  {
    (events[i].Called? ==> WellFormed(events[i].call)) && roots[i + 1] == After(roots[i], events[i])
  }

  ghost predicate IsHistory(roots: seq<Root>, events: seq<Event>) {
    && |roots| == |events| + 1
    && roots[0] == map[]
    && forall i: nat :: i < |events| ==> StepAt(roots, events, i)
  }

  /** A call of a tenant with this directory that got as far as its folder. */
  predicate Concerns(e: Event, t: string) {
    e.Called? && !e.call.storageFails && DirectoryName(e.call.tenant) == t
  }

  /** The start that takes the tenant's directory for the pre-tenant one. */
  predicate Sweeps(e: Event, t: string) {
    e == Started(true) && t == LEGACY
  }

  /** A call's reply, and the folder of another tenant, which it leaves alone. */
  lemma StepByFolder(root: Root, call: Call, t: string)
    requires WellFormed(call)
    ensures FolderOf(Step(root, call).0, t)
            == if Concerns(Called(call), t) then Run(FolderOf(root, t), call).0 else FolderOf(root, t)
    ensures Concerns(Called(call), t) ==> Step(root, call).1 == Run(FolderOf(root, t), call).1
  {}

  lemma EventByFolder(root: Root, e: Event, t: string)
    requires e.Called? ==> WellFormed(e.call)
    ensures FolderOf(After(root, e), t)
            == if Concerns(e, t) then Run(FolderOf(root, t), e.call).0
               else if Sweeps(e, t) then map[] else FolderOf(root, t)
  {
    if e.Called? {
      StepByFolder(root, e.call, t);
    }
  }

  /** The simple map of one tenant's profiles after `n` events; only that tenant's own are looked at. */
  ghost function Ledger(roots: seq<Root>, events: seq<Event>, t: string, n: nat): map<string, string>
    requires IsHistory(roots, events) && n <= |events|
  {
    if n == 0 then map[]
    else
      var e := events[n - 1];
      assert StepAt(roots, events, n - 1);
      if Concerns(e, t) then Meaning(Ledger(roots, events, t, n - 1), e.call.op, Step(roots[n - 1], e.call).1)
      else if Sweeps(e, t) then map[]
      else Ledger(roots, events, t, n - 1)
  }

  ghost predicate HidesAt(roots: seq<Root>, events: seq<Event>, t: string, i: nat)
    requires i < |events| && |roots| == |events| + 1
  {
    Concerns(events[i], t) ==> Hides(FolderOf(roots[i], t), events[i].call)
  }

  /** After any sequence of calls and program starts the intact entries of a tenant's list are exactly the profiles
      it created and did not delete, with their last names, whatever other tenants did and whichever file
      operations failed, as long as none of its deletes failed throughout. */
  lemma {:induction false} StoreRefinesLedger(roots: seq<Root>, events: seq<Event>, t: string, n: nat)
    requires IsHistory(roots, events) && n <= |events|
    requires forall i: nat :: i < n ==> HidesAt(roots, events, t, i)
    ensures RecordsNamed(FolderOf(roots[n], t)) && Names(FolderOf(roots[n], t)) == Ledger(roots, events, t, n)
  {
    if n > 0 {
      StoreRefinesLedger(roots, events, t, n - 1);
      assert StepAt(roots, events, n - 1) && HidesAt(roots, events, t, n - 1);
      EventByFolder(roots[n - 1], events[n - 1], t);
      if Concerns(events[n - 1], t) {
        StepByFolder(roots[n - 1], events[n - 1].call, t);
        RunRefinesIff(FolderOf(roots[n - 1], t), events[n - 1].call);
      }
    }
  }

  /** So listing shows each of them, under its own id, and nothing else as intact. */
  lemma ListShowsLedger(roots: seq<Root>, events: seq<Event>, t: string, n: nat, host: Host, id: string, name: string)
    requires IsHistory(roots, events) && n <= |events|
    requires forall i: nat :: i < n ==> HidesAt(roots, events, t, i)
    ensures (exists dir, locked :: dir in FolderOf(roots[n], t)
               && Shown(dir, FolderOf(roots[n], t)[dir], host) == Some(Profile(id, name, locked)))
            <==> id in Ledger(roots, events, t, n) && Ledger(roots, events, t, n)[id] == name
  {
    StoreRefinesLedger(roots, events, t, n);
    var f := FolderOf(roots[n], t);
    if id in Names(f) && Names(f)[id] == name {
      assert Shown(id, f[id], host) == Some(Profile(id, name, LockedByLive(f[id].lock, host)));
    }
  }

  // ---------------------------------------------------------------- unreadable records

  predicate ListsAsCorrupted(f: Folder, id: string, host: Host) {
    id in f && Shown(id, f[id], host) == Some(CorruptedProfile(id))
  }

  /** A delete marks no record it cannot read. Where it was not refused, the profile is then listed as corrupted exactly
      when its id is one that is listed and its directory was neither moved nor removed altogether. */
  lemma UnreadableStaysListedIff(f: Folder, dir: string, host: Host, now: nat, faults: DeleteFaults)
    requires |faults.renames| == RENAME_ATTEMPTS && DeleteIn(f, dir, host, now, faults).1.Ok?
    requires dir in f && !f[dir].metadata.Good?
    ensures var g := DeleteIn(f, dir, host, now, faults).0;
            ListsAsCorrupted(g, dir, host) <==> Recognized(dir) && !Moves(f, dir, now, faults) && !faults.removal.All?
  {
    assert |QuarantinedName(dir, now)| > |dir|;
  }

  /** The record of a new profile is not written; its delete reports success, moves nothing and removes nothing: the
      profile is listed before and after it, as corrupted. */
  lemma ADeletedProfileStaysListed(tenant: string, bytes: seq<Byte>, name: string, now: nat, host: Host)
    returns (roots: seq<Root>, events: seq<Event>)
    requires |bytes| == 16
    ensures IsHistory(roots, events) && |events| == 2
    ensures events[1].Called? && events[1].call.op.Delete? && events[1].call.op.profile == GeneratedId(bytes)
    ensures WellFormed(events[1].call) && Step(roots[1], events[1].call).1 == Done
    ensures forall i :: 1 <= i <= 2 ==>
              ListsAsCorrupted(FolderOf(roots[i], DirectoryName(tenant)), GeneratedId(bytes), host)
  {
    var id, t := GeneratedId(bytes), DirectoryName(tenant);
    var create := Call(tenant, Create(bytes, name, WriteRecord), now, host, false);
    var delete := Call(
      tenant, Delete(id, DeleteFaults(false, true, seq(RENAME_ATTEMPTS, _ => false), NONE_REMOVED)), now, host, false);
    GeneratedIsClean(bytes);
    GeneratedIsRecognized(bytes);
    events := [Called(create), Called(delete)];
    roots := [map[], Step(map[], create).0, Step(Step(map[], create).0, delete).0];
    assert FolderOf(roots[1], t) == map[id := Dir(Missing, ProfileLock.Absent)];
    ADeleteThatDidNothing(FolderOf(roots[1], t), id, host, now);
    forall i: nat | i < |events| ensures StepAt(roots, events, i) {}
  }

  // ---------------------------------------------------------------- deleted profiles

  /** No directory, one without a record, or one marked for deletion. */
  predicate Gone(f: Folder, dir: string) {
    dir in f ==> f[dir].metadata.Missing? || (f[dir].metadata.Good? && f[dir].metadata.record.state == PendingDeletion)
  }

  lemma GoneOpensAsNotFound(f: Folder, dir: string, host: Host, now: nat, faults: OpenFaults)
    requires Gone(f, dir)
    ensures OpenIn(f, dir, host, now, faults) == (f, Err(NotFound))
  {}

  /** After a delete that was not refused the profile is gone exactly when it was marked or moved, or the removal
      at least took its record, or it was gone before. */
  lemma DeleteIsGoneIff(f: Folder, dir: string, host: Host, now: nat, faults: DeleteFaults)
    requires |faults.renames| == RENAME_ATTEMPTS && DeleteIn(f, dir, host, now, faults).1.Ok?
    ensures dir in f
    ensures Gone(DeleteIn(f, dir, host, now, faults).0, dir)
            <==> Marks(f[dir], faults) || Moves(f, dir, now, faults) || TakesRecord(faults.removal) || Gone(f, dir)
  {
    assert QuarantinedName(dir, now) != dir by {
      assert |QuarantinedName(dir, now)| > |dir|;
    }
  }

  /** A delete of another profile moves it, unmarked and whole, to this very name. */
  predicate Remakes(f: Folder, call: Call, dir: string) {
    && call.op.Delete?
    && var o, faults := DirectoryName(call.op.profile), call.op.faults;
       && QuarantinedName(o, call.now) == dir
       && o in f && !(LockedByLive(f[o].lock, call.host) && !faults.lockUnreadable)
       && Moves(f, o, call.now, faults) && !Marks(f[o], faults) && !TakesRecord(faults.removal) && !Gone(f, o)
  }

  /** Whatever fails, a gone profile stays gone exactly unless the call creates its id or moves another to its name. */
  lemma GoneStaysGoneIff(f: Folder, call: Call, dir: string)
    requires WellFormed(call) && Gone(f, dir)
    ensures Gone(Run(f, call).0, dir) <==> Run(f, call).1 != Created(dir) && !Remakes(f, call, dir)
  {
    match call.op
    case Create(bytes, name, fault) => GeneratedIsClean(bytes);
    case Delete(profile, faults) => DeleteKeepsGoneIff(f, call, dir);
    case _ =>
  }

  lemma DeleteKeepsGoneIff(f: Folder, call: Call, dir: string)
    requires WellFormed(call) && Gone(f, dir) && call.op.Delete?
    ensures Gone(Run(f, call).0, dir) <==> !Remakes(f, call, dir)
  {
    var o := DirectoryName(call.op.profile);
    assert |QuarantinedName(o, call.now)| > |o|;
  }

  /** No id that is listed, and so no generated one, is the name of a moved directory. */
  lemma RecognizedIsNeverRemade(f: Folder, call: Call, dir: string)
    requires Recognized(dir)
    ensures !Remakes(f, call, dir)
  {
    if call.op.Delete? {
      QuarantinedIsNotRecognized(DirectoryName(call.op.profile), call.now);
    }
  }

  /** The event creates this id for the tenant, or moves another profile to its name. */
  ghost predicate Recreates(roots: seq<Root>, events: seq<Event>, t: string, dir: string, i: nat)
    requires i < |events| && |roots| == |events| + 1
  {
    && Concerns(events[i], t) && WellFormed(events[i].call)
    && (Step(roots[i], events[i].call).1 == Created(dir) || Remakes(FolderOf(roots[i], t), events[i].call, dir))
  }

  lemma {:induction false} GoneFromThenOn(roots: seq<Root>, events: seq<Event>, t: string, dir: string, a: nat, b: nat)
    requires IsHistory(roots, events) && a <= b <= |events|
    requires Gone(FolderOf(roots[a], t), dir)
    requires forall i: nat :: a <= i < b ==> !Recreates(roots, events, t, dir, i)
    ensures Gone(FolderOf(roots[b], t), dir)
    decreases b - a
  {
    if a < b {
      GoneFromThenOn(roots, events, t, dir, a, b - 1);
      assert StepAt(roots, events, b - 1) && !Recreates(roots, events, t, dir, b - 1);
      EventByFolder(roots[b - 1], events[b - 1], t);
      if Concerns(events[b - 1], t) {
        StepByFolder(roots[b - 1], events[b - 1].call, t);
        GoneStaysGoneIff(FolderOf(roots[b - 1], t), events[b - 1].call, dir);
      }
    }
  }

  /** A profile whose delete at `a` reported success, and marked it, moved it or removed at least its record, opens
      as not found at every later `b`, whatever happens in between short of creating the same id or, for an id that is
      not listed anyway, moving another profile to that name. */
  lemma DeletedOpensAsNotFound(roots: seq<Root>, events: seq<Event>, t: string, a: nat, b: nat)
    requires IsHistory(roots, events) && a < b < |events|
    requires Concerns(events[a], t) && events[a].call.op.Delete?
    requires WellFormed(events[a].call) && Step(roots[a], events[a].call).1 == Done
    requires var dir, faults := DirectoryName(events[a].call.op.profile), events[a].call.op.faults;
             var f := FolderOf(roots[a], t);
             || (dir in f && Marks(f[dir], faults))
             || Moves(f, dir, events[a].call.now, faults) || TakesRecord(faults.removal)
    requires Concerns(events[b], t) && events[b].call.op.Open?
    requires DirectoryName(events[b].call.op.profile) == DirectoryName(events[a].call.op.profile)
    requires forall i: nat :: a < i < b ==> !Recreates(roots, events, t, DirectoryName(events[a].call.op.profile), i)
    ensures WellFormed(events[b].call) && Step(roots[b], events[b].call).1 == Failed(NotFound)
  {
    var call, dir := events[a].call, DirectoryName(events[a].call.op.profile);
    assert StepAt(roots, events, a) && StepAt(roots, events, b);
    StepByFolder(roots[a], call, t);
    DeleteIsGoneIff(FolderOf(roots[a], t), dir, call.host, call.now, call.op.faults);
    GoneFromThenOn(roots, events, t, dir, a + 1, b);
    var open := events[b].call;
    StepByFolder(roots[b], open, t);
    GoneOpensAsNotFound(FolderOf(roots[b], t), dir, open.host, open.now, open.op.openFaults);
  }

  // ---------------------------------------------------------------- restart

  /** Starting the program changes no tenant's profiles, except that a tenant whose directory is `default` loses
      all of them when the pre-tenant directory is taken to be that one. */
  lemma RestartKeepsProfilesIff(root: Root, moved: bool, t: string)
    ensures Names(FolderOf(Restart(root, moved), t)) == Names(FolderOf(root, t))
            <==> !(t == LEGACY && moved && Names(FolderOf(root, t)) != map[])
  {}

  // ---------------------------------------------------------------- two ids, one directory

  /** Two ids with one directory share its lock: closing under one lets go of what an open under the other took. */
  lemma OneDirectoryOneLock(f: Folder, id: string, other: string, host: Host, now: nat)
    requires DirectoryName(id) == DirectoryName(other) && DirectoryName(id) in f
    requires var d := f[DirectoryName(id)]; d.metadata.Good? && d.metadata.record.state == Active && d.lock.Absent?
    ensures var dir := DirectoryName(id);
            var (g, r) := OpenIn(f, dir, host, now, OpenFaults(ProfileLock.NO_FAULTS, false, false));
            var h := CloseIn(g, DirectoryName(other), true);
            && r.Ok? && dir in g && g[dir].lock == ProfileLock.Written(host.me.pid, host.me.self)
            && dir in h && h[dir].lock.Absent?
  {}
}
