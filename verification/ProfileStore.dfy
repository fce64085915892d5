/** `BrowserProfileStore`: profiles as directories, one folder of them per tenant. Each operation is given the
    file operations that fail this time. */
module ProfileStore {
  import opened Wrappers
  import opened ProfileNames
  import ProfileLock

  datatype RecordState = Active | PendingDeletion

  datatype Record = Record(
    profileId: string, displayName: string, createdAt: nat, lastOpenedAt: Option<nat>, state: RecordState)

  /** A directory's `profile.json`: not there, unreadable, or a record. */
  datatype Metadata = Missing | Corrupt | Good(record: Record)

  datatype Dir = Dir(metadata: Metadata, lock: ProfileLock.Contents)

  /** A tenant's folder, by directory name as the file system compares it. Every directory the store makes is named
      so. */
  type Folder = map<string, Dir>

  datatype Error = NotFound | AlreadyExists | Locked | Corrupted | StorageUnavailable | Platform

  datatype Result<+T> = Ok(value: T) | Err(error: Error)

  /** The processes that run, and this one among them. */
  datatype Host = Host(me: ProfileLock.Process, alive: map<ProfileLock.Pid, ProfileLock.Instance>)

  /** `is_locked_by_a_live_process`. */
  predicate LockedByLive(lock: ProfileLock.Contents, host: Host) {
    ProfileLock.LockedByLive(lock, host.alive)
  }

  // ---------------------------------------------------------------- what each operation does to a folder

  /** Which step of `create_profile` fails; if the ACL step does, whether the new directory can be removed. */
  datatype CreateFault = NoFault | NoUser | MakeDirectory | Acl(removed: bool) | WriteRecord

  function CreateIn(f: Folder, id: string, name: string, now: nat, fault: CreateFault): (Folder, Result<string>) {
    if id in f then (f, Err(AlreadyExists))
    else
      var bare := f[id := Dir(Missing, ProfileLock.Absent)];
      match fault
      case NoUser => (f, Err(Platform))
      case MakeDirectory => (f, Err(StorageUnavailable))
      case Acl(removed) => (if removed then f else bare, Err(Platform))
      case WriteRecord => (bare, Err(StorageUnavailable))
      case NoFault => (f[id := Dir(Good(Record(id, name, now, None, Active)), ProfileLock.Absent)], Ok(id))
  }

  function RenameIn(f: Folder, dir: string, name: string, writeFails: bool): (Folder, Result<()>) {
    if dir !in f || !f[dir].metadata.Good? then (f, Err(Corrupted))
    else if writeFails then (f, Err(StorageUnavailable))
    else (f[dir := f[dir].(metadata := Good(f[dir].metadata.record.(displayName := name)))], Ok(()))
  }

  /** What fails of an open, besides taking the lock: recording the time, which is ignored, and finding the data
      directory at the very end, when the lock is taken. */
  datatype OpenFaults = OpenFaults(lock: ProfileLock.Faults, touchFails: bool, pathFails: bool)

  function OpenIn(f: Folder, dir: string, host: Host, now: nat, faults: OpenFaults): (Folder, Result<()>) {
    if dir !in f || f[dir].metadata.Missing? then (f, Err(NotFound))
    else if f[dir].metadata.Corrupt? then (f, Err(Corrupted))
    else if f[dir].metadata.record.state != Active then (f, Err(NotFound))
    else
      var attempt := ProfileLock.Acquire(f[dir].lock, host.me, host.alive, faults.lock);
      var locked := f[dir].(lock := attempt.contents);
      match attempt.outcome
      case ProfileLocked => (f[dir := locked], Err(Locked))
      case PlatformError => (f[dir := locked], Err(Platform))
      case Acquired(_) =>
        var touched := locked.metadata.record.(lastOpenedAt := Some(now));
        (f[dir := if faults.touchFails then locked else locked.(metadata := Good(touched))],
         if faults.pathFails then Err(StorageUnavailable) else Ok(()))
  }

  function CloseIn(f: Folder, dir: string, removed: bool): Folder {
    if dir in f && removed then f[dir := f[dir].(lock := ProfileLock.Absent)] else f
  }

  /** What `remove_dir_all` takes: the whole directory, or a part of it, with or without the record and the lock. */
  datatype Removal = All | Part(record: bool, lock: bool)

  const NONE_REMOVED := Part(false, false)

  predicate TakesRecord(r: Removal) {
    r.All? || r.record
  }

  /** `renames` are the outcomes of the attempts to move the directory away, `removal` what is then removed. */
  datatype DeleteFaults = DeleteFaults(lockUnreadable: bool, markFails: bool, renames: seq<bool>, removal: Removal)

  function Left(d: Dir, removal: Removal): Option<Dir> {
    match removal
    case All => None
    case Part(record, lock) =>
      Some(Dir(if record then Missing else d.metadata, if lock then ProfileLock.Absent else d.lock))
  }

  function Put(f: Folder, dir: string, d: Option<Dir>): Folder {
    match d
    case None => f - {dir}
    case Some(d) => f[dir := d]
  }

  const RENAME_ATTEMPTS := 20

  /** Some attempt to move the directory succeeds; none can if the name is taken. */
  predicate Moves(f: Folder, dir: string, now: nat, faults: DeleteFaults) {
    true in faults.renames && QuarantinedName(dir, now) !in f
  }

  /** The PendingDeletion mark was written. */
  predicate Marks(d: Dir, faults: DeleteFaults) {
    d.metadata.Good? && !faults.markFails
  }

  function Mark(d: Dir, faults: DeleteFaults): Dir {
    if Marks(d, faults) then d.(metadata := Good(d.metadata.record.(state := PendingDeletion))) else d
  }

  function DeleteIn(f: Folder, dir: string, host: Host, now: nat, faults: DeleteFaults): (Folder, Result<()>)
    requires |faults.renames| == RENAME_ATTEMPTS
  {
    if dir !in f then (f, Err(NotFound))
    else if LockedByLive(f[dir].lock, host) && !faults.lockUnreadable then (f, Err(Locked))
    else
      var d := Mark(f[dir], faults);
      if Moves(f, dir, now, faults) then
        (Put(f - {dir}, QuarantinedName(dir, now), Left(d, faults.removal)), Ok(()))
      else if Marks(f[dir], faults) then (f[dir := d], Ok(()))
      else (Put(f, dir, Left(d, faults.removal)), Ok(()))
  }

  // ---------------------------------------------------------------- listing

  datatype Entry = Profile(profileId: string, displayName: string, locked: bool) | CorruptedProfile(profileId: string)

  /** What `list_profiles` shows of one directory. */
  function Shown(name: string, d: Dir, host: Host): Option<Entry> {
    if !Recognized(name) then None
    else
      match d.metadata
      case Good(r) =>
        if r.state == Active then Some(Profile(r.profileId, r.displayName, LockedByLive(d.lock, host))) else None
      case _ => Some(CorruptedProfile(name))
  }

  // ---------------------------------------------------------------- the store

  datatype Op =
    | Create(bytes: seq<Byte>, name: string, fault: CreateFault)
    | Rename(profile: string, newName: string, writeFails: bool)
    | Open(profile: string, openFaults: OpenFaults)
    | Close(profile: string, removed: bool)
    | Delete(profile: string, faults: DeleteFaults)
    | List

  /** One call: the tenant, the operation, the time, and who runs. `storageFails` says that the tenant's folder
      cannot be made. */
  datatype Call = Call(tenant: string, op: Op, now: nat, host: Host, storageFails: bool)

  predicate WellFormed(call: Call) {
    match call.op
    case Create(bytes, _, _) => |bytes| == 16
    case Delete(_, faults) => |faults.renames| == RENAME_ATTEMPTS
    case _ => true
  }

  datatype Reply = Created(id: string) | Done | Failed(error: Error)

  function ReplyOf(r: Result<()>): Reply {
    match r
    case Ok(_) => Done
    case Err(e) => Failed(e)
  }

  function Run(f: Folder, call: Call): (Folder, Reply)
    requires WellFormed(call)
  {
    match call.op
    case Create(bytes, name, fault) =>
      (match CreateIn(f, DirectoryName(GeneratedId(bytes)), name, call.now, fault)
       case (g, Ok(id)) => (g, Created(id))
       case (g, Err(e)) => (g, Failed(e)))
    case Rename(profile, name, writeFails) =>
      var (g, r) := RenameIn(f, DirectoryName(profile), name, writeFails);
      (g, ReplyOf(r))
    case Open(profile, faults) =>
      var (g, r) := OpenIn(f, DirectoryName(profile), call.host, call.now, faults);
      (g, ReplyOf(r))
    case Close(profile, removed) => (CloseIn(f, DirectoryName(profile), removed), Done)
    case Delete(profile, faults) =>
      var (g, r) := DeleteIn(f, DirectoryName(profile), call.host, call.now, faults);
      (g, ReplyOf(r))
    case List => (f, Done)
  }

  /** All tenants' folders, by sanitized tenant id. */
  type Root = map<string, Folder>

  function FolderOf(root: Root, tenantDir: string): Folder {
    if tenantDir in root then root[tenantDir] else map[]
  }

  function Step(root: Root, call: Call): (Root, Reply)
    requires WellFormed(call)
  {
    if call.storageFails then (root, Failed(StorageUnavailable))
    else
      var t := DirectoryName(call.tenant);
      var (g, reply) := Run(FolderOf(root, t), call);
      (root[t := g], reply)
  }

  const LEGACY: string := "default"
  const QUARANTINE: string := "_legacy-quarantine"

  /** `BrowserProfileStore::new`: the pre-tenant directory `default`, if it is there, is moved away. */
  function Restart(root: Root, moved: bool): Root {
    if LEGACY !in root then root
    else
      var made := if QUARANTINE in root then root else root[QUARANTINE := map[]];
      if moved then made - {LEGACY} else made
  }

  // ---------------------------------------------------------------- the store as an object

  class BrowserProfileStore {
    var root: Root

    constructor ()
      ensures root == map[]
    {
      root := map[];
    }

    /** `tenant_dir`: the tenant's folder, made if missing. */
    method TenantDir(tenant: string, storageFails: bool) returns (dir: Option<string>)
      modifies this
      ensures storageFails ==> dir == None && root == old(root)
      ensures !storageFails ==> dir == Some(DirectoryName(tenant))
      ensures !storageFails ==>
                root == old(root)[DirectoryName(tenant) := FolderOf(old(root), DirectoryName(tenant))]
    {
      if storageFails {
        return None;
      }
      var t := DirectoryName(tenant);
      if t !in root {
        root := root[t := map[]];
      }
      dir := Some(t);
    }

    method SaveFolder(t: string, f: Folder)
      modifies this
      ensures root == old(root)[t := f]
    {
      root := root[t := f];
    }

    method CreateProfile(call: Call) returns (reply: Reply)
      requires WellFormed(call) && call.op.Create?
      modifies this
      ensures (root, reply) == Step(old(root), call)
    {
      var tenantDir := TenantDir(call.tenant, call.storageFails);
      if tenantDir.None? {
        return Failed(StorageUnavailable);
      }
      var t, id, fault := tenantDir.value, DirectoryName(GeneratedId(call.op.bytes)), call.op.fault;
      if id in root[t] {
        return Failed(AlreadyExists);
      }
      if fault.NoUser? {
        return Failed(Platform);
      }
      if fault.MakeDirectory? {
        return Failed(StorageUnavailable);
      }
      ghost var f := root[t];
      SaveFolder(t, root[t][id := Dir(Missing, ProfileLock.Absent)]);
      assert root == old(root)[t := f[id := Dir(Missing, ProfileLock.Absent)]];
      if fault.Acl? {
        if fault.removed {
          SaveFolder(t, root[t] - {id});
          assert root[t] == f && root == old(root)[t := f];
        }
        return Failed(Platform);
      }
      if fault.WriteRecord? {
        return Failed(StorageUnavailable);
      }
      var record := Record(id, call.op.name, call.now, None, Active);
      SaveFolder(t, root[t][id := Dir(Good(record), ProfileLock.Absent)]);
      assert root[t] == f[id := Dir(Good(record), ProfileLock.Absent)] && root == old(root)[t := root[t]];
      reply := Created(id);
    }

    method RenameProfile(call: Call) returns (reply: Reply)
      requires WellFormed(call) && call.op.Rename?
      modifies this
      ensures (root, reply) == Step(old(root), call)
    {
      var tenantDir := TenantDir(call.tenant, call.storageFails);
      if tenantDir.None? {
        return Failed(StorageUnavailable);
      }
      var t, dir := tenantDir.value, DirectoryName(call.op.profile);
      if dir !in root[t] || !root[t][dir].metadata.Good? {
        return Failed(Corrupted);
      }
      if call.op.writeFails {
        return Failed(StorageUnavailable);
      }
      var r := root[t][dir].metadata.record.(displayName := call.op.newName);
      SaveFolder(t, root[t][dir := root[t][dir].(metadata := Good(r))]);
      assert root == old(root)[t := root[t]];
      reply := Done;
    }

    method OpenProfile(call: Call) returns (reply: Reply)
      requires WellFormed(call) && call.op.Open?
      modifies this
      ensures (root, reply) == Step(old(root), call)
    {
      var tenantDir := TenantDir(call.tenant, call.storageFails);
      if tenantDir.None? {
        return Failed(StorageUnavailable);
      }
      var t, dir := tenantDir.value, DirectoryName(call.op.profile);
      if dir !in root[t] || root[t][dir].metadata.Missing? {
        return Failed(NotFound);
      }
      if root[t][dir].metadata.Corrupt? {
        return Failed(Corrupted);
      }
      if root[t][dir].metadata.record.state != Active {
        return Failed(NotFound);
      }
      var d := root[t][dir];
      var attempt := ProfileLock.Acquire(d.lock, call.host.me, call.host.alive, call.op.openFaults.lock);
      d := d.(lock := attempt.contents);
      reply := match attempt.outcome
        case ProfileLocked => Failed(Locked)
        case PlatformError => Failed(Platform)
        case Acquired(_) => Done;
      if reply == Done && !call.op.openFaults.touchFails {
        d := d.(metadata := Good(d.metadata.record.(lastOpenedAt := Some(call.now))));
      }
      SaveFolder(t, root[t][dir := d]);
      assert root == old(root)[t := root[t]];
      if reply == Done && call.op.openFaults.pathFails {
        reply := Failed(StorageUnavailable);
      }
    }

    method CloseProfile(call: Call) returns (reply: Reply)
      requires WellFormed(call) && call.op.Close?
      modifies this
      ensures (root, reply) == Step(old(root), call)
    {
      var tenantDir := TenantDir(call.tenant, call.storageFails);
      if tenantDir.None? {
        return Failed(StorageUnavailable);
      }
      var t, dir := tenantDir.value, DirectoryName(call.op.profile);
      if dir in root[t] && call.op.removed {
        SaveFolder(t, root[t][dir := root[t][dir].(lock := ProfileLock.Absent)]);
      }
      assert root == old(root)[t := root[t]];
      reply := Done;
    }

    /** A record that cannot be read or written leaves the profile unmarked. */
    method MarkPending(t: string, dir: string, faults: DeleteFaults) returns (marked: bool)
      requires t in root && dir in root[t]
      modifies this
      ensures root == old(root)[t := old(root)[t][dir := Mark(old(root)[t][dir], faults)]]
      ensures marked <==> Marks(old(root)[t][dir], faults)
    {
      var d := root[t][dir];
      marked := d.metadata.Good? && !faults.markFails;
      if marked {
        d := d.(metadata := Good(d.metadata.record.(state := PendingDeletion)));
        SaveFolder(t, root[t][dir := d]);
      } else {
        assert root[t][dir := d] == root[t] && root[t := root[t]] == root;
      }
    }

    method DeleteProfile(call: Call) returns (reply: Reply)
      requires WellFormed(call) && call.op.Delete?
      modifies this
      ensures (root, reply) == Step(old(root), call)
    {
      var tenantDir := TenantDir(call.tenant, call.storageFails);
      if tenantDir.None? {
        return Failed(StorageUnavailable);
      }
      var t, dir, faults := tenantDir.value, DirectoryName(call.op.profile), call.op.faults;
      if dir !in root[t] {
        return Failed(NotFound);
      }
      if LockedByLive(root[t][dir].lock, call.host) && !faults.lockUnreadable {
        return Failed(Locked);
      }
      ghost var f := root[t];
      var marked := MarkPending(t, dir, faults);
      assert root == old(root)[t := f[dir := Mark(f[dir], faults)]];
      var quarantined := QuarantinedName(dir, call.now);
      var renamed := RenameWhenReleased(quarantined in root[t], faults.renames);
      if renamed {
        SaveFolder(t, Put(root[t] - {dir}, quarantined, Left(root[t][dir], faults.removal)));
        assert f[dir := Mark(f[dir], faults)] - {dir} == f - {dir};
      } else if !marked {
        SaveFolder(t, Put(root[t], dir, Left(root[t][dir], faults.removal)));
        assert f[dir := f[dir]] == f;
      }
      assert root == old(root)[t := root[t]];
      reply := Done;
    }
  }

  /** The loop of `list_profiles`: the directory is read in any order. */
  method ListFolder(f: Folder, host: Host) returns (entries: seq<Entry>)
    ensures forall e :: e in entries <==> exists name :: name in f && Shown(name, f[name], host) == Some(e)
    ensures |entries| == |ShownNames(f, f.Keys, host)|
  {
    entries := [];
    var rest := f.Keys;
    while rest != {}
      invariant rest <= f.Keys
      invariant forall e ::
                  e in entries <==> exists name :: name in f.Keys - rest && Shown(name, f[name], host) == Some(e)
      invariant |entries| == |ShownNames(f, f.Keys - rest, host)|
      decreases |rest|
    {
      var name :| name in rest;
      ShownWithOneMore(f, f.Keys - rest, name, host);
      assert f.Keys - (rest - {name}) == f.Keys - rest + {name};
      match Shown(name, f[name], host) {
        case Some(e) => entries := entries + [e];
        case None =>
      }
      rest := rest - {name};
    }
    assert f.Keys - rest == f.Keys;
  }

  function ShownNames(f: Folder, names: set<string>, host: Host): set<string>
    requires names <= f.Keys
  {
    set name | name in names && Shown(name, f[name], host).Some?
  }

  lemma ShownWithOneMore(f: Folder, names: set<string>, name: string, host: Host)
    requires names <= f.Keys && name in f && name !in names
    ensures |ShownNames(f, names + {name}, host)|
            == |ShownNames(f, names, host)| + if Shown(name, f[name], host).Some? then 1 else 0
  {
    assert ShownNames(f, names + {name}, host)
           == if Shown(name, f[name], host).Some? then ShownNames(f, names, host) + {name}
              else ShownNames(f, names, host);
  }

  /** `rename_when_released`: tries until one attempt succeeds, twenty times at most. */
  method RenameWhenReleased(taken: bool, renames: seq<bool>) returns (renamed: bool)
    requires |renames| == RENAME_ATTEMPTS
    ensures renamed <==> true in renames && !taken
  {
    var attempt := 0;
    while attempt < RENAME_ATTEMPTS
      invariant attempt <= RENAME_ATTEMPTS && (taken || forall i :: 0 <= i < attempt ==> !renames[i])
    {
      if renames[attempt] && !taken {
        return true;
      }
      attempt := attempt + 1;
    }
    renamed := false;
  }
}
