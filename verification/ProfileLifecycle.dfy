/** Surfaces of profiles coming and going (`browser_create_surface`, `browser_destroy`, session teardown),
    as a state machine over `ActiveProfileSurfaces` and the profile locks this process holds. */
module ProfileLifecycle {
  import opened Wrappers
  import opened ProfileKeys
  import opened ProfileNames
  import opened ProfileSurfaces

  type CreationId = nat

  /** Where a profile's files are, its lock among them. The bindings go by the pair as it was given; sanitizing drops
      characters, and the file system ignores case. */
  datatype Directory = Directory(tenant: string, profile: string)

  function DirectoryOf(key: ProfileKey): Directory {
    Directory(DirectoryName(key.tenantId), DirectoryName(key.profileId))
  }

  /** Where a `browser_create_surface` call stands. */
  datatype Stage =
    | Begun                     // counted as pending
    | Refused                   // open_profile failed; cancel_open comes next
    | Opened                    // open_profile succeeded
    | Made(surface: string)     // the surface exists; record comes next
    | Unmade                    // the surface could not be made; abandon_open comes next

  datatype Creation = Creation(key: ProfileKey, stage: Stage)

  datatype System = System(
    tabs: Tabs,
    held: set<Directory>,               // directories whose lock file is this process's
    creations: map<CreationId, Creation>,
    live: set<string>,
    destroying: set<string>,            // destroyed, release_surface still to come
    usedIds: set<string>,               // surface ids are never reused
    closing: seq<ProfileKey>)           // taken by take_all, close_profile still to come

  /** How `open_profile` ends: done; refused before it took the lock; or failed after, on the data directory. */
  datatype OpenResult = Done | NotLocked | LockedThenFailed

  /** `removed` says that a close, if there is one, does remove the lock file; a failure is swallowed. */
  datatype Label =
    | Begin(c: CreationId, key: ProfileKey)
    | Open(c: CreationId, result: OpenResult)
    | Cancel(c: CreationId)
    | Create(c: CreationId, made: Option<string>)
    | Record(c: CreationId)
    | Abandon(c: CreationId, removed: bool)
    | Destroy(surface: string)
    | Release(surface: string, removed: bool)
    | DestroyAll
    | TakeAll(profiles: seq<ProfileKey>)
    | CloseNext(removed: bool)

  ghost predicate Initial(y: System) {
    y == System(EMPTY, {}, map[], {}, {}, {}, [])
  }

  predicate At(y: System, c: CreationId, stage: Stage) {
    c in y.creations && y.creations[c].stage == stage
  }

  ghost predicate Enabled(y: System, l: Label) {
    match l
    case Begin(c, _) => c !in y.creations
    case Open(c, _) => At(y, c, Begun)
    case Cancel(c) => At(y, c, Refused)
    case Create(c, made) => At(y, c, Opened) && (made.Some? ==> made.value !in y.usedIds)
    case Record(c) => c in y.creations && y.creations[c].stage.Made?
    case Abandon(c, _) => At(y, c, Unmade)
    case Destroy(s) => s in y.live
    case Release(s, _) => s in y.destroying
    case DestroyAll => true
    case TakeAll(profiles) => ListsBoundProfiles(profiles, y.tabs)
    case CloseNext(_) => y.closing != []
  }

  function MoveTo(y: System, c: CreationId, stage: Stage): System
    requires c in y.creations
  {
    y.(creations := y.creations[c := y.creations[c].(stage := stage)])
  }

  /** The profile that `close_profile` is run for in a step: an abandoned or released one that is then no longer in
      use, or the next one of a teardown. */
  ghost function Closed(y: System, l: Label): Option<ProfileKey>
    requires Enabled(y, l)
  {
    match l
    case Abandon(c, _) => Unless(InUse(Finished(y.tabs, y.creations[c].key), y.creations[c].key), y.creations[c].key)
    case Release(s, _) =>
      if s in y.tabs.bindings then Unless(InUse(Unbound(y.tabs, s), y.tabs.bindings[s]), y.tabs.bindings[s]) else None
    case CloseNext(_) => Some(y.closing[0])
    case _ => None
  }

  function Unless(inUse: bool, key: ProfileKey): Option<ProfileKey> {
    if inUse then None else Some(key)
  }

  ghost function Held(y: System, l: Label): set<Directory>
    requires Enabled(y, l)
  {
    match Closed(y, l)
    case Some(key) => if l.removed then y.held - {DirectoryOf(key)} else y.held
    case None => if l.Open? && l.result != NotLocked then y.held + {DirectoryOf(y.creations[l.c].key)} else y.held
  }

  ghost function Next(y: System, l: Label): System
    requires Enabled(y, l)
  {
    Rest(y, l).(held := Held(y, l))
  }

  /** The step, but for the locks. */
  ghost function Rest(y: System, l: Label): System
    requires Enabled(y, l)
  {
    match l
    case Begin(c, key) =>
      y.(tabs := ProfileSurfaces.Begun(y.tabs, key), creations := y.creations[c := Creation(key, Begun)])
    case Open(c, result) => MoveTo(y, c, if result == Done then Opened else Refused)
    case Cancel(c) => y.(tabs := Finished(y.tabs, y.creations[c].key), creations := y.creations - {c})
    case Create(c, made) =>
      (match made
       case None => MoveTo(y, c, Unmade)
       case Some(s) => MoveTo(y, c, Made(s)).(live := y.live + {s}, usedIds := y.usedIds + {s}))
    case Record(c) =>
      y.(tabs := Recorded(y.tabs, y.creations[c].stage.surface, y.creations[c].key), creations := y.creations - {c})
    case Abandon(c, _) => y.(tabs := Finished(y.tabs, y.creations[c].key), creations := y.creations - {c})
    case Destroy(s) => y.(live := y.live - {s}, destroying := y.destroying + {s})
    case Release(s, _) => y.(tabs := Unbound(y.tabs, s), destroying := y.destroying - {s})
    case DestroyAll => y.(live := {})
    case TakeAll(profiles) => y.(tabs := EMPTY, closing := y.closing + profiles)
    case CloseNext(_) => y.(closing := y.closing[1..])
  }

  // ---------------------------------------------------------------- what holds

  function InFlight(creations: map<CreationId, Creation>, key: ProfileKey): set<CreationId> {
    set c | c in creations && creations[c].key == key
  }

  /** The pending count of every profile is its number of in-flight creations. */
  ghost predicate Counted(y: System) {
    CountsPositive(y.tabs.pending) && forall k :: Count(y.tabs.pending, k) == |InFlight(y.creations, k)|
  }

  predicate HasOpened(stage: Stage) {
    !stage.Begun? && !stage.Refused?
  }

  /** The profile of a bound surface or of a creation that opened it. */
  ghost predicate Relied(y: System, key: ProfileKey) {
    Bound(y.tabs, key) || exists c :: c in y.creations && y.creations[c].key == key && HasOpened(y.creations[c].stage)
  }

  /** Its directory's lock is held. */
  ghost predicate Locked(y: System) {
    forall k :: Relied(y, k) ==> DirectoryOf(k) in y.held
  }

  /** Some profile in use has this directory. */
  ghost predicate DirectoryInUse(t: Tabs, d: Directory) {
    exists k :: InUse(t, k) && DirectoryOf(k) == d
  }

  ghost predicate Closing(y: System, d: Directory) {
    exists i :: 0 <= i < |y.closing| && DirectoryOf(y.closing[i]) == d
  }

  /** A held lock is of a directory in use, or is about to be closed. */
  ghost predicate Tight(y: System) {
    forall d :: d in y.held ==> DirectoryInUse(y.tabs, d) || Closing(y, d)
  }

  // ---------------------------------------------------------------- counting

  lemma CountAfterAdd(creations: map<CreationId, Creation>, c: CreationId, x: Creation)
    requires c !in creations
    ensures forall k :: |InFlight(creations[c := x], k)| == |InFlight(creations, k)| + if k == x.key then 1 else 0
  {
    forall k ensures |InFlight(creations[c := x], k)| == |InFlight(creations, k)| + if k == x.key then 1 else 0 {
      assert InFlight(creations[c := x], k) ==
        if k == x.key then InFlight(creations, k) + {c} else InFlight(creations, k);
    }
  }

  lemma CountAfterRemove(creations: map<CreationId, Creation>, c: CreationId)
    requires c in creations
    ensures |InFlight(creations, creations[c].key)| > 0
    ensures forall k ::
              |InFlight(creations - {c}, k)| == |InFlight(creations, k)| - if k == creations[c].key then 1 else 0
  {
    assert c in InFlight(creations, creations[c].key);
    assert (creations - {c})[c := creations[c]] == creations;
    CountAfterAdd(creations - {c}, c, creations[c]);
  }

  lemma CountAfterMove(creations: map<CreationId, Creation>, c: CreationId, stage: Stage)
    requires c in creations
    ensures forall k :: InFlight(creations[c := creations[c].(stage := stage)], k) == InFlight(creations, k)
  {}

  /** Every step but `take_all` keeps the counts right. */
  lemma StepsKeepCounts(y: System, l: Label)
    requires Counted(y) && Enabled(y, l) && !l.TakeAll?
    ensures Counted(Next(y, l))
  {
    match l
    case Begin(c, key) => CountAfterAdd(y.creations, c, Creation(key, Begun));
    case Open(c, result) => CountAfterMove(y.creations, c, if result == Done then Opened else Refused);
    case Create(c, None) => CountAfterMove(y.creations, c, Unmade);
    case Create(c, Some(s)) => CountAfterMove(y.creations, c, Made(s));
    case Cancel(c) => CountAfterRemove(y.creations, c);
    case Record(c) => CountAfterRemove(y.creations, c);
    case Abandon(c, _) => CountAfterRemove(y.creations, c);
    case _ =>
  }

  /** `take_all` forgets the counts: they stay right exactly when no creation is in flight. */
  lemma TakeAllKeepsCountsIff(y: System, profiles: seq<ProfileKey>)
    requires Counted(y) && Enabled(y, TakeAll(profiles))
    ensures Counted(Next(y, TakeAll(profiles))) <==> y.creations == map[]
  {
    if y.creations != map[] {
      var c :| c in y.creations;
      assert c in InFlight(y.creations, y.creations[c].key);
    } else {
      forall k ensures InFlight(y.creations, k) == {} {}
    }
  }

  // ---------------------------------------------------------------- held when relied on

  /** What a step that takes `key` out of use must leave alone. */
  lemma InUseIfRelied(y: System, key: ProfileKey)
    requires Counted(y) && Relied(y, key)
    ensures InUse(y.tabs, key)
  {
    if !Bound(y.tabs, key) {
      var c :| c in y.creations && y.creations[c].key == key && HasOpened(y.creations[c].stage);
      assert c in InFlight(y.creations, key);
    }
  }

  lemma ReliedBefore(y: System, l: Label, k: ProfileKey)
    requires Enabled(y, l) && Relied(Next(y, l), k)
    ensures Relied(y, k) || (l.Open? && l.result == Done && k == y.creations[l.c].key)
  {}

  /** Letting go of one profile leaves the others relied on as they were. */
  lemma OthersStayRelied(y: System, l: Label, k: ProfileKey)
    requires Enabled(y, l) && Closed(y, l).Some? && Relied(y, k) && (k != Closed(y, l).value || l.CloseNext?)
    ensures Relied(Next(y, l), k)
  {
    var z := Next(y, l);
    if Bound(y.tabs, k) {
      var s :| s in y.tabs.bindings && y.tabs.bindings[s] == k;
      assert s in z.tabs.bindings && z.tabs.bindings[s] == k;
    } else {
      var c :| c in y.creations && y.creations[c].key == k && HasOpened(y.creations[c].stage);
      assert c in z.creations && z.creations[c] == y.creations[c];
    }
  }

  lemma ReleasedIsNotRelied(y: System, l: Label)
    requires Counted(y) && Enabled(y, l) && Closed(y, l).Some? && !l.CloseNext?
    ensures !Relied(Next(y, l), Closed(y, l).value)
  {
    StepsKeepCounts(y, l);
    if Relied(Next(y, l), Closed(y, l).value) {
      InUseIfRelied(Next(y, l), Closed(y, l).value);
    }
  }

  /** The step closes a profile whose directory another profile relied on shares, or, in a teardown, one that has been
      opened again. */
  ghost predicate Severs(y: System, l: Label)
    requires Enabled(y, l)
  {
    && Closed(y, l).Some? && l.removed
    && exists k ::
         && Relied(y, k) && DirectoryOf(k) == DirectoryOf(Closed(y, l).value)
         && (k != Closed(y, l).value || l.CloseNext?)
  }

  /** A step keeps the lock of every profile relied on exactly when it does not sever one. */
  lemma StepKeepsLocksIff(y: System, l: Label)
    requires Counted(y) && Locked(y) && Enabled(y, l)
    ensures Locked(Next(y, l)) <==> !Severs(y, l)
  {
    var z := Next(y, l);
    if Severs(y, l) {
      var k :| Relied(y, k) && DirectoryOf(k) == DirectoryOf(Closed(y, l).value)
               && (k != Closed(y, l).value || l.CloseNext?);
      OthersStayRelied(y, l, k);
      assert DirectoryOf(k) !in z.held;
    } else {
      forall k | Relied(z, k) ensures DirectoryOf(k) in z.held {
        ReliedBefore(y, l, k);
        if Closed(y, l).Some? && !l.CloseNext? {
          ReleasedIsNotRelied(y, l);
        }
      }
    }
  }

  // ---------------------------------------------------------------- no lock held for nothing

  /** The profile whose last use ends in this step without its lock file being removed: the last creation in flight of
      an unbound profile is cancelled, or a close fails to remove the file. */
  ghost function Forgotten(y: System, l: Label): Option<ProfileKey>
    requires Enabled(y, l)
  {
    if l.Cancel? then
      var key := y.creations[l.c].key;
      if !Bound(y.tabs, key) && Count(y.tabs.pending, key) == 1 then Some(key) else None
    else if Closed(y, l).Some? && !l.removed then Closed(y, l)
    else None
  }

  /** Its directory's lock is held, is not about to be closed once more, and is shared by no other profile in use:
      nobody is left to release it. */
  ghost predicate Leaks(y: System, l: Label)
    requires Enabled(y, l)
  {
    && Forgotten(y, l).Some?
    && var key := Forgotten(y, l).value;
       && DirectoryOf(key) in y.held && !Closing(Rest(y, l), DirectoryOf(key))
       && forall k :: InUse(y.tabs, k) && DirectoryOf(k) == DirectoryOf(key) ==> k == key && !l.CloseNext?
  }

  predicate SameSurface(a: Stage, b: Stage) {
    a.Made? && b.Made? && a.surface == b.surface
  }

  /** No two creations made the same surface, and a surface is not recorded twice. */
  ghost predicate SurfacesDistinct(y: System) {
    && y.tabs.bindings.Keys <= y.usedIds
    && (forall c :: c in y.creations && y.creations[c].stage.Made? ==>
          y.creations[c].stage.surface in y.usedIds && y.creations[c].stage.surface !in y.tabs.bindings)
    && (forall c, d ::
          c in y.creations && d in y.creations && SameSurface(y.creations[c].stage, y.creations[d].stage) ==> c == d)
  }

  lemma StepsKeepSurfacesDistinct(y: System, l: Label)
    requires SurfacesDistinct(y) && Enabled(y, l)
    ensures SurfacesDistinct(Next(y, l))
  {}

  lemma StillBound(bindings: map<string, ProfileKey>, surface: string, key: ProfileKey, k: ProfileKey)
    requires surface !in bindings
    ensures k in bindings[surface := key].Values <==> k == key || k in bindings.Values
  {
    var more := bindings[surface := key];
    assert surface in more && more[surface] == key;
    if k in bindings.Values {
      var s :| s in bindings && bindings[s] == k;
      assert s in more && more[s] == k;
    }
  }

  /** A profile in use stays in use, unless its last creation is cancelled or its last use released. */
  lemma StillInUse(y: System, l: Label, k: ProfileKey)
    requires Counted(y) && SurfacesDistinct(y) && Enabled(y, l) && !l.TakeAll? && InUse(y.tabs, k)
    ensures || InUse(Next(y, l).tabs, k) || (Closed(y, l) == Some(k) && !l.CloseNext?)
            || (l.Cancel? && Forgotten(y, l) == Some(k))
  {
    match l
    case Record(c) => StillBound(y.tabs.bindings, y.creations[c].stage.surface, y.creations[c].key, k);
    case Release(s, _) =>
      if s in y.tabs.bindings {
        DrainOne(y.tabs.bindings, s);
      } else {
        assert y.tabs.bindings - {s} == y.tabs.bindings;
      }
    case _ =>
  }

  lemma OpenedIsInUse(y: System, c: CreationId)
    requires Counted(y) && c in y.creations
    ensures InUse(y.tabs, y.creations[c].key)
  {
    assert c in InFlight(y.creations, y.creations[c].key);
  }

  lemma StillClosing(y: System, l: Label, d: Directory)
    requires Enabled(y, l) && Closing(y, d)
    ensures Closing(Next(y, l), d) || (l.CloseNext? && DirectoryOf(y.closing[0]) == d)
  {
    var i :| 0 <= i < |y.closing| && DirectoryOf(y.closing[i]) == d;
    if l.CloseNext? && i > 0 {
      assert Next(y, l).closing[i - 1] == y.closing[i];
    } else {
      assert !l.CloseNext? ==> Next(y, l).closing[i] == y.closing[i];
    }
  }

  lemma InUseBefore(y: System, l: Label, k: ProfileKey)
    requires Counted(y) && SurfacesDistinct(y) && Enabled(y, l)
    requires (l.Cancel? || Closed(y, l).Some?) && InUse(Next(y, l).tabs, k)
    ensures InUse(y.tabs, k) && (l.CloseNext? || Forgotten(y, l) != Some(k))
  {
    match l
    case Release(s, _) => DrainOne(y.tabs.bindings, s);
    case _ =>
  }

  /** A leak leaves a held directory that nothing accounts for. */
  lemma LeakIsLoose(y: System, l: Label)
    requires Counted(y) && SurfacesDistinct(y) && Enabled(y, l) && Leaks(y, l)
    ensures !Tight(Next(y, l))
  {
    var z := Next(y, l);
    var d := DirectoryOf(Forgotten(y, l).value);
    assert d in z.held && z.closing == Rest(y, l).closing && !Closing(z, d);
    forall k | InUse(z.tabs, k) ensures DirectoryOf(k) != d {
      InUseBefore(y, l, k);
    }
  }

  lemma StillAccounted(y: System, l: Label, d: Directory)
    requires Counted(y) && Tight(y) && SurfacesDistinct(y)
    requires Enabled(y, l) && !l.TakeAll? && !Leaks(y, l) && d in Next(y, l).held
    ensures DirectoryInUse(Next(y, l).tabs, d) || Closing(Next(y, l), d)
  {
    if d !in y.held {
      OpenedIsInUse(y, l.c);
      StillInUse(y, l, y.creations[l.c].key);
    } else if Forgotten(y, l).Some? && DirectoryOf(Forgotten(y, l).value) == d {
      SharedIsAccounted(y, l, d);
    } else if Closing(y, d) {
      StillClosing(y, l, d);
    } else {
      var k :| InUse(y.tabs, k) && DirectoryOf(k) == d;
      StillInUse(y, l, k);
    }
  }

  /** When the last use of one profile ends but the step does not leak, another accounts for its directory. */
  lemma SharedIsAccounted(y: System, l: Label, d: Directory)
    requires Counted(y) && SurfacesDistinct(y) && Enabled(y, l) && !l.TakeAll? && !Leaks(y, l) && d in y.held
    requires Forgotten(y, l).Some? && DirectoryOf(Forgotten(y, l).value) == d
    ensures DirectoryInUse(Next(y, l).tabs, d) || Closing(Next(y, l), d)
  {
    if !Closing(Next(y, l), d) {
      assert Next(y, l).closing == Rest(y, l).closing;
      var k :| InUse(y.tabs, k) && DirectoryOf(k) == d && !(k == Forgotten(y, l).value && !l.CloseNext?);
      StillInUse(y, l, k);
    }
  }

  /** Every step but `take_all` keeps held locks accounted for exactly when it does not leak. */
  lemma StepKeepsTightIff(y: System, l: Label)
    requires Counted(y) && Tight(y) && SurfacesDistinct(y) && Enabled(y, l) && !l.TakeAll?
    ensures Tight(Next(y, l)) <==> !Leaks(y, l)
  {
    if Leaks(y, l) {
      LeakIsLoose(y, l);
    } else {
      forall d | d in Next(y, l).held ensures DirectoryInUse(Next(y, l).tabs, d) || Closing(Next(y, l), d) {
        StillAccounted(y, l, d);
      }
    }
  }

  /** `take_all` keeps them accounted for exactly when every directory whose lock is held is that of a bound profile
      or about to be closed. */
  lemma TakeAllKeepsTightIff(y: System, profiles: seq<ProfileKey>)
    requires Enabled(y, TakeAll(profiles))
    ensures Tight(Next(y, TakeAll(profiles)))
            <==> forall d :: d in y.held ==> Closing(y, d) || exists k :: Bound(y.tabs, k) && DirectoryOf(k) == d
  {
    forall d ensures Closing(Next(y, TakeAll(profiles)), d)
                     <==> Closing(y, d) || exists k :: Bound(y.tabs, k) && DirectoryOf(k) == d
    {
      ClosingAfterTakeAll(y, profiles, d);
    }
  }

  lemma ClosingAfterTakeAll(y: System, profiles: seq<ProfileKey>, d: Directory)
    requires Enabled(y, TakeAll(profiles))
    ensures Closing(Next(y, TakeAll(profiles)), d)
            <==> Closing(y, d) || exists k :: Bound(y.tabs, k) && DirectoryOf(k) == d
  {
    var z := Next(y, TakeAll(profiles));
    if Closing(z, d) {
      var i :| 0 <= i < |z.closing| && DirectoryOf(z.closing[i]) == d;
      if i < |y.closing| {
        assert y.closing[i] == z.closing[i];
      } else {
        assert z.closing[i] in profiles;
      }
    }
    if Closing(y, d) {
      StillClosing(y, TakeAll(profiles), d);
    }
    if k :| Bound(y.tabs, k) && DirectoryOf(k) == d {
      var i :| 0 <= i < |profiles| && profiles[i] == k;
      assert z.closing[|y.closing| + i] == k;
    }
  }

  // ---------------------------------------------------------------- runs

  ghost predicate StepAt(systems: seq<System>, labels: seq<Label>, i: nat)
    requires i < |labels| && |systems| == |labels| + 1
  {
    Enabled(systems[i], labels[i]) && systems[i + 1] == Next(systems[i], labels[i])
  }

  ghost predicate IsRun(systems: seq<System>, labels: seq<Label>) {
    && |systems| == |labels| + 1
    && Initial(systems[0])
    && forall i: nat :: i < |labels| ==> StepAt(systems, labels, i)
  }

  /** `take_all` finds no creation in flight, and no lock that is relied on is let go. */
  ghost predicate Orderly(y: System, l: Label) {
    && (l.TakeAll? ==> y.creations == map[])
    && (Enabled(y, l) ==> !Severs(y, l))
  }

  ghost predicate Sound(y: System) {
    Counted(y) && Locked(y) && SurfacesDistinct(y)
  }

  lemma InitialIsSound(y: System)
    requires Initial(y)
    ensures Sound(y) && Tight(y)
  {
    forall k ensures InFlight(y.creations, k) == {} {}
  }

  lemma OrderlyStepKeepsSound(y: System, l: Label)
    requires Sound(y) && Enabled(y, l) && Orderly(y, l)
    ensures Sound(Next(y, l))
  {
    StepsKeepSurfacesDistinct(y, l);
    StepKeepsLocksIff(y, l);
    if l.TakeAll? {
      TakeAllKeepsCountsIff(y, l.profiles);
    } else {
      StepsKeepCounts(y, l);
    }
  }

  /** In every interleaving of surface creations and destructions the pending count of a profile is its number
      of in-flight creations, and every profile with a bound surface or an opened creation has its lock held. */
  lemma {:induction false} LocksFollowUse(systems: seq<System>, labels: seq<Label>, n: nat)
    requires IsRun(systems, labels) && n < |systems|
    requires forall i :: 0 <= i < n ==> Orderly(systems[i], labels[i])
    ensures Sound(systems[n])
  {
    if n == 0 {
      InitialIsSound(systems[0]);
    } else {
      LocksFollowUse(systems, labels, n - 1);
      assert StepAt(systems, labels, n - 1);
      OrderlyStepKeepsSound(systems[n - 1], labels[n - 1]);
    }
  }

  /** When moreover no step leaks, no lock is held for nothing: a held directory is in use or about to be closed. */
  lemma {:induction false} NoLockHeldForNothing(systems: seq<System>, labels: seq<Label>, n: nat)
    requires IsRun(systems, labels) && n < |systems|
    requires forall i :: 0 <= i < n ==>
               Orderly(systems[i], labels[i]) && (Enabled(systems[i], labels[i]) ==> !Leaks(systems[i], labels[i]))
    ensures Tight(systems[n])
  {
    if n == 0 {
      InitialIsSound(systems[0]);
    } else {
      var y, l := systems[n - 1], labels[n - 1];
      LocksFollowUse(systems, labels, n - 1);
      NoLockHeldForNothing(systems, labels, n - 1);
      assert StepAt(systems, labels, n - 1);
      if l.TakeAll? {
        NothingPending(y);
        TakeAllKeepsTightIff(y, l.profiles);
      } else {
        StepKeepsTightIff(y, l);
      }
    }
  }

  lemma NothingPending(y: System)
    requires Counted(y) && y.creations == map[]
    ensures forall k :: InUse(y.tabs, k) <==> Bound(y.tabs, k)
  {
    forall k ensures InFlight(y.creations, k) == {} {}
  }

  /** A step lets go of a directory's lock only by closing a profile of that directory: in its own last release or
      abandoned open, after which it is not in use, or at teardown; and nobody relies on the lock any more. */
  lemma ReleasedWithLastUse(systems: seq<System>, labels: seq<Label>, n: nat, d: Directory)
    requires IsRun(systems, labels) && n < |labels|
    requires forall i :: 0 <= i <= n ==> Orderly(systems[i], labels[i])
    requires d in systems[n].held && d !in systems[n + 1].held
    ensures Enabled(systems[n], labels[n]) && Closed(systems[n], labels[n]).Some?
    ensures var key := Closed(systems[n], labels[n]).value;
            && DirectoryOf(key) == d
            && (|| labels[n].CloseNext?
                || (!InUse(systems[n + 1].tabs, key) && (labels[n].Abandon? || labels[n].Release?)))
    ensures forall k :: DirectoryOf(k) == d ==> !Relied(systems[n + 1], k)
  {
    assert StepAt(systems, labels, n);
    LocksFollowUse(systems, labels, n);
    OrderlyStepKeepsSound(systems[n], labels[n]);
  }

  // ---------------------------------------------------------------- distinct directories

  /** No two of these pairs share a directory. */
  ghost predicate Apart(keys: iset<ProfileKey>) {
    forall k, m :: k in keys && m in keys && DirectoryOf(k) == DirectoryOf(m) ==> k == m
  }

  /** Only these pairs are around, and no profile about to be closed is in use. */
  ghost predicate Clean(keys: iset<ProfileKey>, y: System) {
    && (forall s :: s in y.tabs.bindings ==> y.tabs.bindings[s] in keys)
    && (forall c :: c in y.creations ==> y.creations[c].key in keys)
    && (forall k :: k in y.closing ==> k in keys && !InUse(y.tabs, k))
  }

  /** Teardown happens with no creation in flight, no profile is opened again before it is closed, and only these pairs
      are asked for. */
  ghost predicate Careful(keys: iset<ProfileKey>, y: System, l: Label) {
    && (l.TakeAll? ==> y.creations == map[])
    && (l.Begin? ==> l.key in keys && l.key !in y.closing)
  }

  lemma CleanNeverSevers(keys: iset<ProfileKey>, y: System, l: Label)
    requires Apart(keys) && Counted(y) && Clean(keys, y) && Enabled(y, l)
    ensures !Severs(y, l)
  {
    assert l.CloseNext? ==> y.closing[0] in y.closing;
    if k :| Relied(y, k) && Closed(y, l).Some? && DirectoryOf(k) == DirectoryOf(Closed(y, l).value)
            && (k != Closed(y, l).value || l.CloseNext?) {
      InUseIfRelied(y, k);
      RelyingIsKnown(keys, y, k);
    }
  }

  lemma RelyingIsKnown(keys: iset<ProfileKey>, y: System, k: ProfileKey)
    requires Clean(keys, y) && Relied(y, k)
    ensures k in keys
  {}

  lemma CarefulStepKeepsClean(keys: iset<ProfileKey>, y: System, l: Label)
    requires Counted(y) && SurfacesDistinct(y) && Clean(keys, y) && Enabled(y, l) && Careful(keys, y, l)
    ensures Clean(keys, Next(y, l))
  {
    var z := Next(y, l);
    forall k | k in z.closing ensures k in keys && !InUse(z.tabs, k) {
      ClosingStaysIdle(keys, y, l, k);
    }
  }

  lemma ClosingStaysIdle(keys: iset<ProfileKey>, y: System, l: Label, k: ProfileKey)
    requires Counted(y) && SurfacesDistinct(y) && Clean(keys, y) && Enabled(y, l) && Careful(keys, y, l)
    requires k in Next(y, l).closing
    ensures k in keys && !InUse(Next(y, l).tabs, k)
  {
    match l
    case Record(c) =>
      OpenedIsInUse(y, c);
      StillBound(y.tabs.bindings, y.creations[c].stage.surface, y.creations[c].key, k);
    case Release(s, _) =>
      if s in y.tabs.bindings {
        DrainOne(y.tabs.bindings, s);
      } else {
        assert y.tabs.bindings - {s} == y.tabs.bindings;
      }
    case CloseNext(_) => assert y.closing == [y.closing[0]] + y.closing[1..];
    case _ =>
  }

  /** When no two pairs asked for share a directory and teardown is not overtaken by an open, every step of the run is
      orderly: no lock that is relied on is ever lost. */
  lemma {:induction false} ProfilesApartKeepTheirLocks(
    keys: iset<ProfileKey>, systems: seq<System>, labels: seq<Label>, n: nat)
    requires Apart(keys) && IsRun(systems, labels) && n < |systems|
    requires forall i :: 0 <= i < n ==> Careful(keys, systems[i], labels[i])
    ensures Sound(systems[n]) && Clean(keys, systems[n])
    ensures forall i :: 0 <= i < n ==> Orderly(systems[i], labels[i])
  {
    if n == 0 {
      InitialIsSound(systems[0]);
    } else {
      ProfilesApartKeepTheirLocks(keys, systems, labels, n - 1);
      assert StepAt(systems, labels, n - 1);
      CleanNeverSevers(keys, systems[n - 1], labels[n - 1]);
      OrderlyStepKeepsSound(systems[n - 1], labels[n - 1]);
      CarefulStepKeepsClean(keys, systems[n - 1], labels[n - 1]);
    }
  }

  // ---------------------------------------------------------------- whose lock is removed

  /** Every profile that teardown has yet to close is there once and has its directory's lock held. */
  ghost predicate ClosingHeld(y: System) {
    && (forall k :: k in y.closing ==> DirectoryOf(k) in y.held)
    && (forall i, j :: 0 <= i < j < |y.closing| ==> y.closing[i] != y.closing[j])
  }

  /** The process holds the lock of what it closes in this step. */
  ghost predicate ClosesItsOwn(y: System, l: Label) {
    Enabled(y, l) && Closed(y, l).Some? ==> DirectoryOf(Closed(y, l).value) in y.held
  }

  lemma ClosedIsHeld(y: System, l: Label)
    requires Locked(y) && ClosingHeld(y) && Enabled(y, l)
    ensures ClosesItsOwn(y, l)
  {
    match l
    case Abandon(c, _) => assert Relied(y, y.creations[c].key);
    case Release(s, _) => assert s in y.tabs.bindings ==> Bound(y.tabs, y.tabs.bindings[s]);
    case CloseNext(_) => assert y.closing[0] in y.closing;
    case _ =>
  }

  lemma TakeAllKeepsClosingHeld(keys: iset<ProfileKey>, y: System, profiles: seq<ProfileKey>)
    requires Locked(y) && Clean(keys, y) && ClosingHeld(y) && Enabled(y, TakeAll(profiles))
    ensures ClosingHeld(Next(y, TakeAll(profiles)))
  {
    var z := Next(y, TakeAll(profiles));
    forall k | k in z.closing ensures DirectoryOf(k) in z.held {
      if k !in y.closing {
        assert k in profiles && Bound(y.tabs, k) && Relied(y, k);
      }
    }
    forall i, j | 0 <= i < j < |z.closing| ensures z.closing[i] != z.closing[j] {
      if i < |y.closing| <= j {
        assert z.closing[i] in y.closing && z.closing[j] in profiles && Bound(y.tabs, z.closing[j]);
      } else if |y.closing| <= i {
        assert Before(profiles[i - |y.closing|], profiles[j - |y.closing|]);
        BeforeIsIrreflexive(z.closing[i]);
      }
    }
  }

  /** A profile closed outside of teardown is in use before that, so it is none that teardown has yet to close. */
  lemma ClosedIsNotClosing(keys: iset<ProfileKey>, y: System, l: Label)
    requires Counted(y) && Clean(keys, y) && Enabled(y, l) && Closed(y, l).Some? && !l.CloseNext?
    ensures Closed(y, l).value in keys && Closed(y, l).value !in y.closing
  {
    match l
    case Abandon(c, _) =>
      assert Relied(y, y.creations[c].key);
      InUseIfRelied(y, y.creations[c].key);
    case Release(s, _) => assert Bound(y.tabs, y.tabs.bindings[s]);
    case _ =>
  }

  lemma StepKeepsClosingHeld(keys: iset<ProfileKey>, y: System, l: Label)
    requires Apart(keys) && Counted(y) && Locked(y) && Clean(keys, y) && ClosingHeld(y) && Enabled(y, l)
    ensures ClosingHeld(Next(y, l))
  {
    if l.TakeAll? {
      TakeAllKeepsClosingHeld(keys, y, l.profiles);
    } else if l.CloseNext? {
      TeardownKeepsClosingHeld(keys, y, l.removed);
    } else if Closed(y, l).Some? {
      ClosedIsNotClosing(keys, y, l);
    }
  }

  lemma TeardownKeepsClosingHeld(keys: iset<ProfileKey>, y: System, removed: bool)
    requires Apart(keys) && Clean(keys, y) && ClosingHeld(y) && Enabled(y, CloseNext(removed))
    ensures ClosingHeld(Next(y, CloseNext(removed)))
  {
    var z := Next(y, CloseNext(removed));
    forall k | k in z.closing ensures DirectoryOf(k) in z.held {
      var i :| 0 <= i < |z.closing| && z.closing[i] == k;
      assert k == y.closing[i + 1] != y.closing[0];
      assert k in keys && y.closing[0] in keys;
    }
  }

  lemma ClosesItsOwnOnce(keys: iset<ProfileKey>, y: System, l: Label)
    requires Apart(keys) && Sound(y) && Clean(keys, y) && ClosingHeld(y) && Enabled(y, l)
    ensures ClosesItsOwn(y, l) && ClosingHeld(Next(y, l))
  {
    ClosedIsHeld(y, l);
    StepKeepsClosingHeld(keys, y, l);
  }

  /** In such runs the process closes only profiles whose directory's lock it holds, so that it never removes a lock
      that another process took. */
  lemma {:induction false} ProfilesApartCloseTheirOwn(
    keys: iset<ProfileKey>, systems: seq<System>, labels: seq<Label>, n: nat)
    requires Apart(keys) && IsRun(systems, labels) && n < |systems|
    requires forall i :: 0 <= i < n ==> Careful(keys, systems[i], labels[i])
    ensures ClosingHeld(systems[n])
    ensures forall i :: 0 <= i < n ==> ClosesItsOwn(systems[i], labels[i])
  {
    if n > 0 {
      ProfilesApartCloseTheirOwn(keys, systems, labels, n - 1);
      ProfilesApartKeepTheirLocks(keys, systems, labels, n - 1);
      assert StepAt(systems, labels, n - 1);
      ClosesItsOwnOnce(keys, systems[n - 1], labels[n - 1]);
    }
  }

  /** The pair is its own directory, case included. */
  predicate Canonical(key: ProfileKey) {
    DirectoryName(key.tenantId) == key.tenantId && DirectoryName(key.profileId) == key.profileId
  }

  /** No two canonical pairs share a directory, and a generated id under a canonical tenant is one. */
  lemma CanonicalPairsAreApart(tenant: string, bytes: seq<Byte>)
    requires DirectoryName(tenant) == tenant && |bytes| == 16
    ensures Apart(iset k | Canonical(k)) && Canonical(ProfileKey(tenant, GeneratedId(bytes)))
  {
    GeneratedIsClean(bytes);
  }

  // ---------------------------------------------------------------- when it fails

  function Last(systems: seq<System>): System
    requires systems != []
  {
    systems[|systems| - 1]
  }

  /** A run one step longer. */
  lemma Extend(systems0: seq<System>, labels0: seq<Label>, l: Label) returns (systems: seq<System>, labels: seq<Label>)
    requires IsRun(systems0, labels0) && Enabled(Last(systems0), l)
    ensures IsRun(systems, labels) && Last(systems) == Next(Last(systems0), l)
  {
    systems, labels := systems0 + [Next(Last(systems0), l)], labels0 + [l];
    forall i: nat | i < |labels| ensures StepAt(systems, labels, i) {
      if i < |labels0| {
        assert StepAt(systems0, labels0, i);
      }
    }
  }

  /** Another tab is opened and recorded. */
  lemma OneTab(systems0: seq<System>, labels0: seq<Label>, key: ProfileKey, s: string)
    returns (systems: seq<System>, labels: seq<Label>)
    requires IsRun(systems0, labels0) && Last(systems0).creations == map[] && Last(systems0).tabs.pending == map[]
    requires s !in Last(systems0).usedIds
    ensures IsRun(systems, labels)
    ensures var y := Last(systems0);
            Last(systems)
            == y.(tabs := y.tabs.(bindings := y.tabs.bindings[s := key]), held := y.held + {DirectoryOf(key)},
                  live := y.live + {s}, usedIds := y.usedIds + {s})
  {
    systems, labels := Extend(systems0, labels0, Begin(0, key));
    systems, labels := Extend(systems, labels, Open(0, Done));
    systems, labels := Extend(systems, labels, Create(0, Some(s)));
    systems, labels := Extend(systems, labels, Record(0));
  }

  lemma Start() returns (systems: seq<System>, labels: seq<Label>)
    ensures IsRun(systems, labels) && Initial(Last(systems))
  {
    systems, labels := [System(EMPTY, {}, map[], {}, {}, {}, [])], [];
  }

  /** A tab is closed while a second open of its profile is in flight, and that open then fails: the lock stays
      held although nothing uses the profile any more. */
  lemma AFailedOpenOverTheLastCloseLeaks(key: ProfileKey, s: string) returns (systems: seq<System>, labels: seq<Label>)
    ensures IsRun(systems, labels) && Last(systems) == System(EMPTY, {DirectoryOf(key)}, map[], {}, {}, {s}, [])
  {
    systems, labels := Start();
    systems, labels := OneTab(systems, labels, key, s);
    systems, labels := Extend(systems, labels, Begin(1, key));
    systems, labels := Extend(systems, labels, Destroy(s));
    systems, labels := Extend(systems, labels, Release(s, true));
    systems, labels := Extend(systems, labels, Open(1, NotLocked));
    systems, labels := Extend(systems, labels, Cancel(1));
  }

  /** An open that fails on the data directory, after it took the lock, leaves it held with no tab at all. */
  lemma AnOpenThatFailsLateLeaks(key: ProfileKey) returns (systems: seq<System>, labels: seq<Label>)
    ensures IsRun(systems, labels) && Last(systems) == System(EMPTY, {DirectoryOf(key)}, map[], {}, {}, {}, [])
  {
    systems, labels := Start();
    systems, labels := Extend(systems, labels, Begin(0, key));
    systems, labels := Extend(systems, labels, Open(0, LockedThenFailed));
    systems, labels := Extend(systems, labels, Cancel(0));
  }

  /** A profile opened again between `take_all` and the `close_profile` that follows loses its lock. */
  lemma AnOpenDuringTeardownLosesItsLock(key: ProfileKey, s: string) returns (systems: seq<System>, labels: seq<Label>)
    ensures IsRun(systems, labels) && Relied(Last(systems), key) && DirectoryOf(key) !in Last(systems).held
  {
    systems, labels := Start();
    systems, labels := OneTab(systems, labels, key, s);
    assert s in Last(systems).tabs.bindings;
    systems, labels := Extend(systems, labels, TakeAll([key]));
    systems, labels := Extend(systems, labels, Begin(1, key));
    systems, labels := Extend(systems, labels, Open(1, Done));
    systems, labels := Extend(systems, labels, CloseNext(true));
    assert 1 in Last(systems).creations && Last(systems).creations[1].key == key;
  }

  /** The last tab of a profile is destroyed and its lock file cannot be removed: the lock stays held for nothing. */
  lemma AFailedRemovalLeaks(key: ProfileKey, s: string) returns (systems: seq<System>, labels: seq<Label>)
    ensures IsRun(systems, labels) && Last(systems) == System(EMPTY, {DirectoryOf(key)}, map[], {}, {}, {s}, [])
  {
    systems, labels := Start();
    systems, labels := OneTab(systems, labels, key, s);
    systems, labels := Extend(systems, labels, Destroy(s));
    assert Last(systems).tabs.bindings - {s} == map[];
    systems, labels := Extend(systems, labels, Release(s, false));
  }

  /** Two tabs of one directory under two ids: closing the second takes the lock of the first, though no teardown is
      near and no open fails. */
  lemma SharedDirectoryLosesALock(first: ProfileKey, second: ProfileKey, s: string, t: string)
    returns (systems: seq<System>, labels: seq<Label>)
    requires first != second && DirectoryOf(first) == DirectoryOf(second) && s != t
    ensures IsRun(systems, labels) && Bound(Last(systems).tabs, first) && DirectoryOf(first) !in Last(systems).held
  {
    systems, labels := Start();
    systems, labels := OneTab(systems, labels, first, s);
    systems, labels := OneTab(systems, labels, second, t);
    systems, labels := Extend(systems, labels, Destroy(t));
    assert Last(systems).tabs.bindings - {t} == map[s := first];
    systems, labels := Extend(systems, labels, Release(t, true));
    assert s in Last(systems).tabs.bindings;
  }

  /** Two ids that differ in a character sanitizing drops. */
  lemma TwoSpellingsLoseALock(tenant: string, id: string, s: string, t: string)
    returns (systems: seq<System>, labels: seq<Label>)
    requires AllClean(id) && 0 < |id| <= COMPONENT_LENGTH && s != t
    ensures IsRun(systems, labels) && Bound(Last(systems).tabs, ProfileKey(tenant, id))
    ensures DirectoryOf(ProfileKey(tenant, id)) !in Last(systems).held
  {
    SanitizeDropsADot(id);
    systems, labels := SharedDirectoryLosesALock(ProfileKey(tenant, id), ProfileKey(tenant, id + "."), s, t);
  }

  /** Two ids that differ only in case. */
  lemma TwoCasesLoseALock(tenant: string, s: string, t: string) returns (systems: seq<System>, labels: seq<Label>)
    requires s != t
    ensures IsRun(systems, labels) && Bound(Last(systems).tabs, ProfileKey(tenant, "ab"))
    ensures DirectoryOf(ProfileKey(tenant, "ab")) !in Last(systems).held
  {
    TwoCasesOneDirectory();
    systems, labels := SharedDirectoryLosesALock(ProfileKey(tenant, "ab"), ProfileKey(tenant, "Ab"), s, t);
  }
}
