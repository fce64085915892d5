/** Directory names: sanitized components, generated profile ids, and the names of deleted remnants. */
module ProfileNames {
  import opened Ascii
  import opened Json

  /** ASCII alphanumeric, '-' or '_'. */
  predicate IsClean(c: char) {
    ('a' <= c <= 'z') || ('A' <= c <= 'Z') || ('0' <= c <= '9') || c == '-' || c == '_'
  }

  ghost predicate AllClean(s: string) {
    forall i :: 0 <= i < |s| ==> IsClean(s[i])
  }

  function Filter(s: string): string {
    if |s| == 0 then ""
    else if IsClean(s[0]) then [s[0]] + Filter(s[1..])
    else Filter(s[1..])
  }

  const COMPONENT_LENGTH := 128

  /** `sanitize_path_component`. */
  function Sanitize(value: string): string {
    var cleaned := Filter(value);
    var taken := if |cleaned| > COMPONENT_LENGTH then cleaned[..COMPONENT_LENGTH] else cleaned;
    if |taken| == 0 then "invalid" else taken
  }

  lemma {:induction false} FilterIsClean(s: string)
    ensures AllClean(Filter(s))
  {
    if |s| > 0 {
      FilterIsClean(s[1..]);
    }
  }

  lemma {:induction false} FilterKeepsClean(s: string)
    requires AllClean(s)
    ensures Filter(s) == s
  {
    if |s| > 0 {
      FilterKeepsClean(s[1..]);
      assert s == [s[0]] + s[1..];
    }
  }

  lemma SanitizedIsClean(s: string)
    ensures AllClean(Sanitize(s)) && 0 < |Sanitize(s)| <= COMPONENT_LENGTH
  {
    FilterIsClean(s);
  }

  /** A sanitized component has no separator and no dot: it is one directory name, and names itself. */
  lemma SanitizeIsIdempotent(s: string)
    ensures Sanitize(Sanitize(s)) == Sanitize(s)
    ensures '/' !in Sanitize(s) && '\\' !in Sanitize(s) && '.' !in Sanitize(s)
  {
    SanitizedIsClean(s);
    FilterKeepsClean(Sanitize(s));
  }

  lemma {:induction false} FilterSkips(a: string, c: char, b: string)
    requires !IsClean(c)
    ensures Filter(a + [c] + b) == Filter(a + b)
  {
    if |a| == 0 {
      assert (a + [c] + b)[1..] == b && a + b == b;
    } else {
      assert (a + [c] + b)[1..] == a[1..] + [c] + b && (a + b)[1..] == a[1..] + b;
      FilterSkips(a[1..], c, b);
    }
  }

  /** Characters other than letters, digits, '-' and '_' are dropped wherever they stand; of the others the first 128
      are kept; and if there are none the component is "invalid". */
  lemma SanitizeKeepsTheClean(a: string, c: char, b: string)
    ensures !IsListed(c) ==> Sanitize(a + [c] + b) == Sanitize(a + b)
    ensures (forall i :: 0 <= i < |a| ==> IsListed(a[i])) ==>
              Sanitize(a) == if a == "" then "invalid" else if |a| <= 128 then a else a[..128]
  {
    CleanIsListed(c);
    if !IsClean(c) {
      FilterSkips(a, c, b);
    }
    forall i | 0 <= i < |a| ensures IsClean(a[i]) <==> IsListed(a[i]) {
      CleanIsListed(a[i]);
    }
    if AllClean(a) {
      FilterKeepsClean(a);
    }
  }

  predicate IsListed(c: char) {
    c in SMALL || c in CAPITAL || c in "0123456789" || c == '-' || c == '_'
  }

  const SMALL: string := "abcdefghijklmnopqrstuvwxyz"
  const CAPITAL: string := "ABCDEFGHIJKLMNOPQRSTUVWXYZ"

  lemma Letters()
    ensures |SMALL| == 26 && forall i :: 0 <= i < 26 ==> SMALL[i] as int == 'a' as int + i
    ensures |CAPITAL| == 26 && forall i :: 0 <= i < 26 ==> CAPITAL[i] as int == 'A' as int + i
  {}

  lemma SmallLetters(c: char)
    ensures c in SMALL <==> 'a' <= c <= 'z'
  {
    Letters();
    if 'a' <= c <= 'z' {
      assert SMALL[c as int - 'a' as int] == c;
    }
  }

  lemma CapitalLetters(c: char)
    ensures c in CAPITAL <==> 'A' <= c <= 'Z'
  {
    Letters();
    if 'A' <= c <= 'Z' {
      assert CAPITAL[c as int - 'A' as int] == c;
    }
  }

  lemma Digits(c: char)
    ensures c in "0123456789" <==> '0' <= c <= '9'
  {
    if '0' <= c <= '9' {
      assert "0123456789"[c as int - '0' as int] == c;
    }
  }

  lemma CleanIsListed(c: char)
    ensures IsClean(c) <==> IsListed(c)
  {
    SmallLetters(c);
    CapitalLetters(c);
    Digits(c);
  }

  /** Not injective: two tenants may share a directory. */
  lemma TwoTenantsOneDirectory()
    ensures Sanitize("a.b") == Sanitize("ab")
  {}

  /** The name under which the file system finds a component: Windows ignores case, and after sanitizing only ASCII is
      left. */
  function DirectoryName(value: string): string {
    Lower(Sanitize(value))
  }

  lemma DirectoryNameIsClean(s: string)
    ensures AllClean(DirectoryName(s)) && 0 < |DirectoryName(s)| <= COMPONENT_LENGTH
  {
    SanitizedIsClean(s);
    forall i | 0 <= i < |DirectoryName(s)| ensures IsClean(DirectoryName(s)[i]) {
      assert IsClean(Sanitize(s)[i]);
    }
  }

  /** A directory's name finds that directory. */
  lemma DirectoryNameIsIdempotent(s: string)
    ensures DirectoryName(DirectoryName(s)) == DirectoryName(s)
  {
    DirectoryNameIsClean(s);
    FilterKeepsClean(DirectoryName(s));
    LowerIsIdempotent(Sanitize(s));
  }

  /** Clean ids that differ only in case share a directory. */
  lemma CaseIsIgnored(s: string, t: string)
    requires AllClean(s) && AllClean(t) && 0 < |s| <= COMPONENT_LENGTH && Lower(s) == Lower(t)
    ensures DirectoryName(s) == DirectoryName(t) == Lower(s)
  {
    assert |Lower(t)| == |t|;
    FilterKeepsClean(s);
    FilterKeepsClean(t);
  }

  lemma TwoCasesOneDirectory()
    ensures DirectoryName("ab") == DirectoryName("Ab")
  {
    assert Lower("ab") == "ab" == Lower("Ab");
    CaseIsIgnored("ab", "Ab");
  }

  lemma {:induction false} FilterDropsLast(s: string, c: char)
    requires AllClean(s) && !IsClean(c)
    ensures Filter(s + [c]) == s
  {
    if |s| > 0 {
      assert (s + [c])[1..] == s[1..] + [c];
      FilterDropsLast(s[1..], c);
      assert s == [s[0]] + s[1..];
    }
  }

  /** Every clean component has another spelling. */
  lemma SanitizeDropsADot(s: string)
    requires AllClean(s) && 0 < |s| <= COMPONENT_LENGTH
    ensures Sanitize(s) == s && Sanitize(s + ".") == s && s + "." != s
    ensures DirectoryName(s + ".") == DirectoryName(s)
  {
    FilterKeepsClean(s);
    FilterDropsLast(s, '.');
    assert |s + "."| > |s|;
  }

  // ---------------------------------------------------------------- generated ids

  type Byte = x: nat | x < 256

  function HexOf(bytes: seq<Byte>): (s: string)
    ensures |s| == 2 * |bytes|
    ensures forall i :: 0 <= i < |s| ==> ('0' <= s[i] <= '9') || ('a' <= s[i] <= 'f')
  {
    if |bytes| == 0 then ""
    else [HexDigit(bytes[0] / 16), HexDigit(bytes[0] % 16)] + HexOf(bytes[1..])
  }

  const PREFIX: string := "profile-"
  const DELETED: string := "-deleted-"

  /** `BrowserProfileId::generate`. */
  function GeneratedId(bytes: seq<Byte>): string {
    PREFIX + HexOf(bytes)
  }

  lemma {:induction false} HexIsInjective(a: seq<Byte>, b: seq<Byte>)
    requires |a| == |b| && HexOf(a) == HexOf(b)
    ensures a == b
  {
    if |a| > 0 {
      assert HexOf(a)[0] == HexOf(b)[0] && HexOf(a)[1] == HexOf(b)[1];
      assert HexOf(a)[2..] == HexOf(a[1..]) && HexOf(b)[2..] == HexOf(b[1..]);
      HexIsInjective(a[1..], b[1..]);
      assert a == [a[0]] + a[1..] && b == [b[0]] + b[1..];
    }
  }

  /** An id is "profile-" and 32 hexadecimal digits, in lower case, and tells the sixteen random bytes it was made
      of. */
  lemma GeneratedTellsItsBytes(a: seq<Byte>, b: seq<Byte>)
    requires |a| == 16 && |b| == 16
    ensures |GeneratedId(a)| == 40 && GeneratedId(a)[..8] == "profile-"
    ensures forall i :: 8 <= i < 40 ==> GeneratedId(a)[i] in "0123456789abcdef"
    ensures GeneratedId(a) == GeneratedId(b) <==> a == b
  {
    if GeneratedId(a) == GeneratedId(b) {
      assert GeneratedId(a)[8..] == HexOf(a) && GeneratedId(b)[8..] == HexOf(b);
      HexIsInjective(a, b);
    }
    forall i | 8 <= i < 40 ensures GeneratedId(a)[i] in "0123456789abcdef" {
      HexIsListed(HexOf(a)[i - 8]);
    }
  }

  lemma HexIsListed(c: char)
    requires ('0' <= c <= '9') || ('a' <= c <= 'f')
    ensures c in "0123456789abcdef"
  {
    var i := if '0' <= c <= '9' then c as int - '0' as int else 10 + c as int - 'a' as int;
    assert "0123456789abcdef"[i] == c;
  }

  predicate Contains(s: string, part: string) {
    exists i :: 0 <= i <= |s| - |part| && OccursAt(s, part, i)
  }

  predicate OccursAt(s: string, part: string, i: nat)
    requires i + |part| <= |s|
  {
    forall j :: 0 <= j < |part| ==> s[i + j] == part[j]
  }

  /** `from_directory_name` accepts it. */
  predicate Recognized(name: string) {
    && |PREFIX| <= |name| && OccursAt(name, PREFIX, 0)
    && !Contains(name, DELETED)
  }

  lemma OccursMeans(s: string, part: string, i: nat)
    requires i + |part| <= |s|
    ensures OccursAt(s, part, i) <==> s[i..i + |part|] == part
  {}

  lemma ContainsMeans(s: string, part: string)
    ensures Contains(s, part) <==> exists before, after :: s == before + part + after
  {
    if Contains(s, part) {
      var i :| 0 <= i <= |s| - |part| && OccursAt(s, part, i);
      OccursMeans(s, part, i);
      assert s == s[..i] + part + s[i + |part|..];
    }
    if before, after :| s == before + part + after {
      OccursMeans(s, part, |before|);
      assert OccursAt(s, part, |before|);
    }
  }

  /** The names that are listed begin with "profile-" and hold no "-deleted-". */
  lemma RecognizedMeans(name: string)
    ensures Recognized(name)
            <==> && (exists rest :: name == "profile-" + rest)
                 && !(exists before, after :: name == before + "-deleted-" + after)
  {
    ContainsMeans(name, "-deleted-");
    if |PREFIX| <= |name| && OccursAt(name, PREFIX, 0) {
      assert name == "profile-" + name[|PREFIX|..];
    }
  }

  /** Where `delete_profile` moves a directory. */
  function QuarantinedName(name: string, now: nat): string {
    name + DELETED + Decimal(now)
  }

  lemma QuarantinedIsNotRecognized(name: string, now: nat)
    ensures !Recognized(QuarantinedName(name, now))
  {
    var q := QuarantinedName(name, now);
    assert OccursAt(q, DELETED, |name|);
  }

  lemma GeneratedIsClean(bytes: seq<Byte>)
    requires |bytes| == 16
    ensures DirectoryName(GeneratedId(bytes)) == GeneratedId(bytes)
  {
    var id := GeneratedId(bytes);
    forall i | 0 <= i < |id| ensures IsClean(id[i]) && AsciiLower(id[i]) == id[i] {
      if i >= 8 {
        assert id[i] == HexOf(bytes)[i - 8];
      }
    }
    FilterKeepsClean(id);
  }

  /** A generated id is its own directory name, is listed, and is never taken for a deleted remnant. */
  lemma GeneratedIsRecognized(bytes: seq<Byte>)
    requires |bytes| == 16
    ensures Recognized(GeneratedId(bytes))
  {
    var id := GeneratedId(bytes);
    assert id[10] == HexOf(bytes)[2];
    if Contains(id, DELETED) {
      var i :| 0 <= i <= |id| - |DELETED| && OccursAt(id, DELETED, i);
      DashOnlyAtSeven(bytes, i);
      assert id[i + 3] == DELETED[3];
    }
  }

  lemma NoDashAfterPrefix(bytes: seq<Byte>, i: nat)
    requires |PREFIX| <= i < |GeneratedId(bytes)|
    ensures GeneratedId(bytes)[i] != '-'
  {}

  lemma DashOnlyAtSeven(bytes: seq<Byte>, i: nat)
    requires i + |DELETED| <= |GeneratedId(bytes)| && OccursAt(GeneratedId(bytes), DELETED, i)
    ensures i == 7
  {
    var id := GeneratedId(bytes);
    assert id[i + 0] == DELETED[0];
    if i < 8 {
      assert id[i] == PREFIX[i];
    } else {
      NoDashAfterPrefix(bytes, i);
    }
  }
}
