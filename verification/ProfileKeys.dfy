/** A tenant-scoped profile, and what sorting and deduplicating a vector of them gives
    (`take_all` closes each profile once). */
module ProfileKeys {
  import opened StringOrder

  datatype ProfileKey = ProfileKey(tenantId: string, profileId: string)

  /** The order of the pairs `(tenant.as_str(), profile.as_str())`. */
  predicate Before(a: ProfileKey, b: ProfileKey) {
    Less(a.tenantId, b.tenantId) || (a.tenantId == b.tenantId && Less(a.profileId, b.profileId))
  }

  lemma BeforeIsTransitive(a: ProfileKey, b: ProfileKey, c: ProfileKey)
    requires Before(a, b) && Before(b, c)
    ensures Before(a, c)
  {
    if Less(a.tenantId, b.tenantId) && Less(b.tenantId, c.tenantId) {
      LessIsTransitive(a.tenantId, b.tenantId, c.tenantId);
    } else if a.tenantId == b.tenantId == c.tenantId {
      LessIsTransitive(a.profileId, b.profileId, c.profileId);
    }
  }

  lemma BeforeIsTotal(a: ProfileKey, b: ProfileKey)
    ensures a == b || Before(a, b) || Before(b, a)
  {
    LessIsTotal(a.tenantId, b.tenantId);
    LessIsTotal(a.profileId, b.profileId);
  }

  lemma BeforeIsIrreflexive(a: ProfileKey)
    ensures !Before(a, a)
  {
    LessIsIrreflexive(a.tenantId);
    LessIsIrreflexive(a.profileId);
  }

  predicate NotAfter(a: ProfileKey, b: ProfileKey) {
    a == b || Before(a, b)
  }

  // ---------------------------------------------------------------- sort

  ghost predicate Ascending(s: seq<ProfileKey>) {
    forall i, j :: 0 <= i < j < |s| ==> NotAfter(s[i], s[j])
  }

  function InsertSorted(k: ProfileKey, s: seq<ProfileKey>): seq<ProfileKey> {
    if |s| == 0 then [k]
    else if Before(s[0], k) then [s[0]] + InsertSorted(k, s[1..])
    else [k] + s
  }

  function Sort(s: seq<ProfileKey>): seq<ProfileKey> {
    if |s| == 0 then [] else InsertSorted(s[0], Sort(s[1..]))
  }

  lemma {:induction false} InsertSortedElements(k: ProfileKey, s: seq<ProfileKey>)
    ensures forall x :: x in InsertSorted(k, s) <==> x == k || x in s
  {
    if |s| > 0 && Before(s[0], k) {
      InsertSortedElements(k, s[1..]);
      assert s == [s[0]] + s[1..];
    }
  }

  lemma PrependAscending(k: ProfileKey, s: seq<ProfileKey>)
    requires Ascending(s) && forall x :: x in s ==> NotAfter(k, x)
    ensures Ascending([k] + s)
  {}

  lemma HeadNotAfter(k: ProfileKey, s: seq<ProfileKey>)
    requires |s| > 0 && Ascending(s) && NotAfter(k, s[0])
    ensures forall x :: x in s ==> NotAfter(k, x)
  {
    forall x | x in s ensures NotAfter(k, x) {
      var i :| 0 <= i < |s| && s[i] == x;
      if i > 0 && k != s[0] && s[0] != x {
        BeforeIsTransitive(k, s[0], x);
      }
    }
  }

  lemma {:induction false} InsertSortedAscends(k: ProfileKey, s: seq<ProfileKey>)
    requires Ascending(s)
    ensures Ascending(InsertSorted(k, s))
  {
    if |s| == 0 {
    } else if Before(s[0], k) {
      InsertSortedAscends(k, s[1..]);
      InsertSortedElements(k, s[1..]);
      HeadNotAfter(s[0], s);
      PrependAscending(s[0], InsertSorted(k, s[1..]));
    } else {
      BeforeIsTotal(s[0], k);
      HeadNotAfter(k, s);
      PrependAscending(k, s);
    }
  }

  lemma {:induction false} SortSorts(s: seq<ProfileKey>)
    ensures Ascending(Sort(s)) && forall x :: x in Sort(s) <==> x in s
  {
    if |s| > 0 {
      SortSorts(s[1..]);
      InsertSortedAscends(s[0], Sort(s[1..]));
      InsertSortedElements(s[0], Sort(s[1..]));
      assert s == [s[0]] + s[1..];
    }
  }

  // ---------------------------------------------------------------- dedup

  /** In order and without repetition. */
  ghost predicate StrictlyAscending(s: seq<ProfileKey>) {
    forall i, j :: 0 <= i < j < |s| ==> Before(s[i], s[j])
  }

  /** `Vec::dedup`: of equal neighbours the first is kept. */
  function Dedup(s: seq<ProfileKey>): seq<ProfileKey>
    decreases |s|
  {
    if |s| < 2 then s
    else if s[0] == s[1] then Dedup([s[0]] + s[2..])
    else [s[0]] + Dedup(s[1..])
  }

  lemma {:induction false} DedupOfSorted(s: seq<ProfileKey>)
    requires Ascending(s)
    ensures StrictlyAscending(Dedup(s)) && forall x :: x in Dedup(s) <==> x in s
    ensures |s| > 0 ==> |Dedup(s)| > 0 && Dedup(s)[0] == s[0]
    decreases |s|
  {
    if |s| < 2 {
    } else if s[0] == s[1] {
      assert s == [s[0], s[1]] + s[2..];
      DedupOfSorted([s[0]] + s[2..]);
    } else {
      assert s == [s[0]] + s[1..];
      DedupOfSorted(s[1..]);
      StrictFromHead(s[0], Dedup(s[1..]));
    }
  }

  lemma StrictFromHead(k: ProfileKey, s: seq<ProfileKey>)
    requires StrictlyAscending(s) && |s| > 0 && Before(k, s[0])
    ensures StrictlyAscending([k] + s)
  {
    forall j | 0 <= j < |s| ensures Before(k, s[j]) {
      if j > 0 {
        BeforeIsTransitive(k, s[0], s[j]);
      }
    }
  }

  /** The set of elements determines a strictly ascending vector: whatever order a hash map drained its
      values in, the sorted and deduplicated result is the same. */
  lemma {:induction false} StrictlyAscendingIsDetermined(s: seq<ProfileKey>, t: seq<ProfileKey>)
    requires StrictlyAscending(s) && StrictlyAscending(t) && forall x :: x in s <==> x in t
    ensures s == t
  {
    if |s| == 0 {
      NonEmptyHasMember(t);
    } else {
      assert s[0] in s && s[0] in t;
      assert t[0] in t && t[0] in s;
      LeastIsUnique(s, t);
      TailsAgree(s, t);
      StrictlyAscendingIsDetermined(s[1..], t[1..]);
      assert s == [s[0]] + s[1..] && t == [t[0]] + t[1..];
    }
  }

  lemma NonEmptyHasMember(t: seq<ProfileKey>)
    ensures t == [] || exists x :: x in t
  {
    if |t| > 0 {
      assert t[0] in t;
    }
  }

  lemma LeastIsUnique(s: seq<ProfileKey>, t: seq<ProfileKey>)
    requires StrictlyAscending(s) && StrictlyAscending(t) && |s| > 0 && |t| > 0 && s[0] in t && t[0] in s
    ensures s[0] == t[0]
  {
    if s[0] != t[0] {
      var i :| 0 <= i < |t| && t[i] == s[0];
      var j :| 0 <= j < |s| && s[j] == t[0];
      BeforeIsTransitive(t[0], s[0], t[0]);
      BeforeIsIrreflexive(t[0]);
    }
  }

  lemma TailsAgree(s: seq<ProfileKey>, t: seq<ProfileKey>)
    requires StrictlyAscending(s) && StrictlyAscending(t) && |s| > 0 && |t| > 0 && s[0] == t[0]
    requires forall x :: x in s <==> x in t
    ensures forall x :: x in s[1..] <==> x in t[1..]
  {
    forall x ensures x in s[1..] <==> x in s && x != s[0] { InTail(s, x); }
    forall x ensures x in t[1..] <==> x in t && x != t[0] { InTail(t, x); }
  }

  lemma InTail(s: seq<ProfileKey>, x: ProfileKey)
    requires StrictlyAscending(s) && |s| > 0
    ensures x in s[1..] <==> x in s && x != s[0]
  {
    assert s == [s[0]] + s[1..];
    HeadNotInTail(s);
  }

  lemma HeadNotInTail(s: seq<ProfileKey>)
    requires StrictlyAscending(s) && |s| > 0
    ensures s[0] !in s[1..]
  {
    BeforeIsIrreflexive(s[0]);
  }
}
