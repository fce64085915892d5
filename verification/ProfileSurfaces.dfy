/** `ActiveProfileSurfaces`: which surface uses which profile, how many creations of each profile are in
    flight, and which profile is declared active. */
module ProfileSurfaces {
  import opened Wrappers
  import opened ProfileKeys

  /** The three fields as one value. */
  datatype Tabs = Tabs(bindings: map<string, ProfileKey>, pending: map<ProfileKey, nat>, active: Option<ProfileKey>)

  /** In-flight creations of a profile; a stored count is never zero. */
  function Count(pending: map<ProfileKey, nat>, key: ProfileKey): nat {
    if key in pending then pending[key] else 0
  }

  predicate CountsPositive(pending: map<ProfileKey, nat>) {
    forall k :: k in pending ==> pending[k] > 0
  }

  /** Some surface is bound to the profile. */
  predicate Bound(t: Tabs, key: ProfileKey) {
    key in t.bindings.Values
  }

  /** `profile_in_use`. */
  predicate InUse(t: Tabs, key: ProfileKey) {
    Bound(t, key) || Count(t.pending, key) > 0
  }

  /** One creation of `key` more. */
  function BeginCounting(pending: map<ProfileKey, nat>, key: ProfileKey): (p: map<ProfileKey, nat>)
    ensures forall k :: Count(p, k) == Count(pending, k) + if k == key then 1 else 0
    ensures CountsPositive(pending) ==> CountsPositive(p)
  {
    pending[key := Count(pending, key) + 1]
  }

  /** `finish_pending_open`: one creation fewer, saturating; a count that reaches zero is removed. */
  function FinishCounting(pending: map<ProfileKey, nat>, key: ProfileKey): (p: map<ProfileKey, nat>)
    ensures forall k ::
              Count(p, k) == if k == key && Count(pending, k) > 0 then Count(pending, k) - 1 else Count(pending, k)
    ensures CountsPositive(pending) ==> CountsPositive(p)
  {
    if key !in pending then pending
    else if pending[key] <= 1 then pending - {key}
    else pending[key := pending[key] - 1]
  }

  function Begun(t: Tabs, key: ProfileKey): Tabs {
    t.(pending := BeginCounting(t.pending, key))
  }

  function Finished(t: Tabs, key: ProfileKey): Tabs {
    t.(pending := FinishCounting(t.pending, key))
  }

  function Recorded(t: Tabs, surface: string, key: ProfileKey): Tabs {
    Finished(t, key).(bindings := t.bindings[surface := key])
  }

  function Unbound(t: Tabs, surface: string): Tabs {
    t.(bindings := t.bindings - {surface})
  }

  const EMPTY := Tabs(map[], map[], None)

  /** Every profile with a bound surface, once, in order. */
  ghost predicate ListsBoundProfiles(profiles: seq<ProfileKey>, t: Tabs) {
    StrictlyAscending(profiles) && forall k :: k in profiles <==> Bound(t, k)
  }

  /** There is only one such vector: the order in which the hash map is drained does not show. */
  lemma BoundProfilesAreDetermined(a: seq<ProfileKey>, b: seq<ProfileKey>, t: Tabs)
    requires ListsBoundProfiles(a, t) && ListsBoundProfiles(b, t)
    ensures a == b
  {
    StrictlyAscendingIsDetermined(a, b);
  }

  class ActiveProfileSurfaces {
    var bindings: map<string, ProfileKey>
    var pendingOpens: map<ProfileKey, nat>
    var activeProfile: Option<ProfileKey>

    function State(): Tabs
      reads this
    {
      Tabs(bindings, pendingOpens, activeProfile)
    }

    predicate Valid()
      reads this
    {
      CountsPositive(pendingOpens)
    }

    constructor ()
      ensures Valid() && State() == EMPTY
    {
      bindings, pendingOpens, activeProfile := map[], map[], None;
    }

    method BeginOpen(key: ProfileKey)
      requires Valid()
      modifies this`pendingOpens
      ensures Valid() && State() == Begun(old(State()), key)
    {
      if key !in pendingOpens {
        pendingOpens := pendingOpens[key := 0];
      }
      pendingOpens := pendingOpens[key := pendingOpens[key] + 1];
    }

    method FinishPendingOpen(key: ProfileKey)
      requires Valid()
      modifies this`pendingOpens
      ensures Valid() && State() == Finished(old(State()), key)
    {
      if key in pendingOpens {
        var count := if pendingOpens[key] > 0 then pendingOpens[key] - 1 else 0;
        pendingOpens := pendingOpens[key := count];
        if count == 0 {
          pendingOpens := pendingOpens - {key};
        }
      }
    }

    method CancelOpen(key: ProfileKey)
      requires Valid()
      modifies this`pendingOpens
      ensures Valid() && State() == Finished(old(State()), key)
    {
      FinishPendingOpen(key);
    }

    /** `released` says whether the caller's closure, which closes the profile, was run. */
    method AbandonOpen(key: ProfileKey) returns (released: bool)
      requires Valid()
      modifies this`pendingOpens
      ensures Valid() && State() == Finished(old(State()), key)
      ensures released <==> !InUse(State(), key)
    {
      FinishPendingOpen(key);
      released := !InUse(State(), key);
    }

    method SetActiveProfile(tenantId: string, profileId: Option<string>)
      modifies this`activeProfile
      ensures profileId.None? ==> activeProfile == None
      ensures profileId.Some? ==> activeProfile == Some(ProfileKey(tenantId, profileId.value))
    {
      match profileId {
        case None => activeProfile := None;
        case Some(id) => activeProfile := Some(ProfileKey(tenantId, id));
      }
    }

    method ClearActiveProfile()
      modifies this`activeProfile
      ensures forall tenantId, profileId :: !IsActiveProfile(tenantId, profileId)
      ensures activeProfile == None
    {
      activeProfile := None;
    }

    predicate IsActiveProfile(tenantId: string, profileId: string)
      reads this`activeProfile
    {
      match activeProfile
      case Some(key) => key.tenantId == tenantId && key.profileId == profileId
      case None => false
    }

    method Record(surface: string, key: ProfileKey)
      requires Valid()
      modifies this`pendingOpens, this`bindings
      ensures Valid() && State() == Recorded(old(State()), surface, key)
    {
      FinishPendingOpen(key);
      bindings := bindings[surface := key];
    }

    method ReleaseSurface(surface: string) returns (binding: Option<ProfileKey>, released: bool)
      requires Valid()
      modifies this`bindings
      ensures Valid() && State() == Unbound(old(State()), surface)
      ensures binding == if surface in old(bindings) then Some(old(bindings)[surface]) else None
      ensures released <==> binding.Some? && !InUse(State(), binding.value)
    {
      if surface !in bindings {
        assert bindings - {surface} == bindings;
        return None, false;
      }
      var key := bindings[surface];
      bindings := bindings - {surface};
      binding, released := Some(key), !InUse(State(), key);
    }

    method Lookup(surface: string) returns (binding: Option<ProfileKey>)
      ensures binding.Some? <==> surface in bindings
      ensures binding.Some? ==> bindings[surface] == binding.value
    {
      binding := if surface in bindings then Some(bindings[surface]) else None;
    }

    /** The drain visits the hash map in any order. */
    method TakeAll() returns (profiles: seq<ProfileKey>)
      modifies this
      ensures ListsBoundProfiles(profiles, old(State()))
      ensures Valid() && State() == EMPTY
    {
      pendingOpens := map[];
      activeProfile := None;
      var drained: seq<ProfileKey> := [];
      while bindings != map[]
        invariant forall k :: k in old(bindings).Values <==> k in drained || k in bindings.Values
        invariant pendingOpens == map[] && activeProfile == None
        decreases |bindings|
      {
        var surface :| surface in bindings;
        DrainOne(bindings, surface);
        drained := drained + [bindings[surface]];
        bindings := bindings - {surface};
      }
      profiles := Sort(drained);
      SortSorts(drained);
      DedupOfSorted(profiles);
      profiles := Dedup(profiles);
    }
  }

  lemma DrainOne(bindings: map<string, ProfileKey>, surface: string)
    requires surface in bindings
    ensures forall k :: k in bindings.Values <==> k == bindings[surface] || k in (bindings - {surface}).Values
    ensures |bindings - {surface}| < |bindings|
  {
    var rest := bindings - {surface};
    assert rest.Keys == bindings.Keys - {surface};
    forall k | k in bindings.Values ensures k == bindings[surface] || k in rest.Values {
      var s :| s in bindings && bindings[s] == k;
      if s != surface {
        assert s in rest && rest[s] == k;
      }
    }
    assert |rest| == |rest.Keys| && |bindings| == |bindings.Keys|;
    assert |bindings.Keys| == |rest.Keys| + 1;
  }
}
