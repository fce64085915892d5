/** The text a grant's signature covers: ten fields joined by colons (`canonical_payload`), and
    when it can be read back although the timestamps contain colons themselves. */
module GrantPayload {
  import opened Wrappers
  import opened Json
  import opened GrantParameters

  predicate NoColon(s: string) {
    ':' !in s
  }

  /** `[...].join(":")`. */
  function Join(parts: seq<string>): string
    requires |parts| > 0
  {
    if |parts| == 1 then parts[0] else parts[0] + ":" + Join(parts[1..])
  }

  /** An absent generation is the empty string, never "None". */
  function GenerationText(generation: Option<nat>): string {
    match generation
    case None => ""
    case Some(n) => Decimal(n)
  }

  function Parts(g: Grant): seq<string> {
    [g.grantId, g.tenantId, g.principalId, g.capability, g.profileId, g.surfaceId,
     GenerationText(g.generation), g.parametersHash, g.issuedAt, g.expiresAt]
  }

  function CanonicalPayload(g: Grant): string {
    Join(Parts(g))
  }

  // ---------------------------------------------------------------- timestamps

  predicate DigitAt(s: string, i: nat) {
    i < |s| && IsDigit(s[i])
  }

  predicate CharAt(s: string, i: nat, c: char) {
    i < |s| && s[i] == c
  }

  /** `full-date "T" time-hour ":" time-minute ":" time-second`: the first 19 characters of the
      date-time of section 5.6 of RFC 3339 (which also admits a lower-case "t"). */
  predicate DateAndTime(s: string) {
    && DigitAt(s, 0) && DigitAt(s, 1) && DigitAt(s, 2) && DigitAt(s, 3) && CharAt(s, 4, '-')
    && DigitAt(s, 5) && DigitAt(s, 6) && CharAt(s, 7, '-') && DigitAt(s, 8) && DigitAt(s, 9)
    && (CharAt(s, 10, 'T') || CharAt(s, 10, 't'))
    && DigitAt(s, 11) && DigitAt(s, 12) && CharAt(s, 13, ':') && DigitAt(s, 14) && DigitAt(s, 15)
    && CharAt(s, 16, ':') && DigitAt(s, 17) && DigitAt(s, 18)
  }

  /** The optional `time-secfrac`: "." and at least one digit. */
  function FractionLength(s: string): (n: nat)
    ensures n <= |s|
  {
    if CharAt(s, 0, '.') && DigitRun(s[1..]) > 0 then 1 + DigitRun(s[1..]) else 0
  }

  /** The `time-offset`: "Z" or a signed "hh:mm". */
  function OffsetLength(s: string): (n: Option<nat>)
    ensures n.Some? ==> 0 < n.value <= |s|
  {
    if CharAt(s, 0, 'Z') || CharAt(s, 0, 'z') then Some(1)
    else if (CharAt(s, 0, '+') || CharAt(s, 0, '-')) && DigitAt(s, 1) && DigitAt(s, 2) && CharAt(s, 3, ':')
            && DigitAt(s, 4) && DigitAt(s, 5) then Some(6)
    else None
  }

  /** The length of the date-time `s` begins with, if it begins with one. */
  function TimestampLength(s: string): (n: Option<nat>)
    ensures n.Some? ==> 19 < n.value <= |s|
  {
    if !DateAndTime(s) then None
    else
      var f := FractionLength(s[19..]);
      match OffsetLength(s[19 + f..])
      case None => None
      case Some(o) => Some(19 + f + o)
  }

  predicate IsTimestamp(s: string) {
    TimestampLength(s) == Some(|s|)
  }

  lemma FractionOfAppend(s: string, t: string)
    requires |s| > FractionLength(s)
    requires s[0] == '.' ==> FractionLength(s) > 0
    ensures FractionLength(s + t) == FractionLength(s)
  {
    if s[0] == '.' {
      assert (s + t)[1..] == s[1..] + t;
      DigitRunStopsInside(s[1..], t);
    }
  }

  lemma {:induction false} DigitRunStopsInside(s: string, t: string)
    ensures DigitRun(s) < |s| ==> DigitRun(s + t) == DigitRun(s)
  {
    if DigitRun(s) < |s| && StartsWithDigit(s) {
      assert (s + t)[1..] == s[1..] + t;
      DigitRunStopsInside(s[1..], t);
    }
  }

  lemma OffsetOfAppend(s: string, t: string)
    requires OffsetLength(s).Some?
    ensures OffsetLength(s + t) == OffsetLength(s)
  {}

  /** A date-time is self-delimiting: what follows it never changes where it ends. */
  lemma TimestampOfAppend(s: string, t: string)
    requires TimestampLength(s).Some?
    ensures TimestampLength(s + t) == TimestampLength(s)
  {
    var f := FractionLength(s[19..]);
    assert (s + t)[19..] == s[19..] + t;
    FractionOfAppend(s[19..], t);
    assert (s + t)[19 + f..] == s[19 + f..] + t;
    OffsetOfAppend(s[19 + f..], t);
  }

  // ---------------------------------------------------------------- reading back

  datatype Split = Split(head: string, tail: string)

  /** Cuts at the first colon. */
  function CutAtColon(s: string): (r: Option<Split>)
    ensures r.Some? ==> NoColon(r.value.head) && s == r.value.head + ":" + r.value.tail
    ensures r.None? ==> NoColon(s)
  {
    if |s| == 0 then None
    else if s[0] == ':' then
      assert s == "" + ":" + s[1..];
      Some(Split("", s[1..]))
    else
      match CutAtColon(s[1..])
      case None => None
      case Some(Split(h, t)) =>
        assert s == [s[0]] + s[1..];
        Some(Split([s[0]] + h, t))
  }

  lemma {:induction false} CutAfterField(field: string, rest: string)
    requires NoColon(field)
    ensures CutAtColon(field + ":" + rest) == Some(Split(field, rest))
  {
    var s := field + ":" + rest;
    if |field| == 0 {
      assert s[1..] == rest;
    } else {
      assert s[1..] == field[1..] + ":" + rest;
      CutAfterField(field[1..], rest);
      assert [field[0]] + field[1..] == field;
    }
  }

  /** The first `n` colon-free fields, then the rest. */
  function Fields(s: string, n: nat): (r: Option<(seq<string>, string)>)
    ensures r.Some? ==> |r.value.0| == n && forall i :: 0 <= i < n ==> NoColon(r.value.0[i])
    decreases n
  {
    if n == 0 then Some(([], s))
    else
      match CutAtColon(s)
      case None => None
      case Some(Split(h, t)) =>
        match Fields(t, n - 1)
        case None => None
        case Some((more, rest)) => Some(([h] + more, rest))
  }

  lemma {:induction false} FieldsOfJoin(parts: seq<string>, n: nat)
    requires n < |parts|
    requires forall i :: 0 <= i < n ==> NoColon(parts[i])
    ensures Fields(Join(parts), n) == Some((parts[..n], Join(parts[n..])))
  {
    if n == 0 {
      assert parts[0..] == parts;
    } else {
      CutAfterField(parts[0], Join(parts[1..]));
      FieldsOfJoin(parts[1..], n - 1);
      assert parts[..n] == [parts[0]] + parts[1..][..n - 1];
      assert parts[1..][n - 1..] == parts[n..];
    }
  }

  function ReadGeneration(s: string): Option<Option<nat>> {
    if s == "" then Some(None)
    else if DigitRun(s) == |s| then Some(Some(DigitsValue(s)))
    else None
  }

  lemma GenerationReadsBack(generation: Option<nat>)
    ensures NoColon(GenerationText(generation))
    ensures ReadGeneration(GenerationText(generation)) == Some(generation)
  {
    if generation.Some? {
      var n := generation.value;
      DecimalIsDigits(n);
      DigitRunOfAppend(Decimal(n), "");
      assert Decimal(n) + "" == Decimal(n);
      assert !IsDigit(':');
    }
  }

  /** The last two fields: the first timestamp is as long as its own grammar says. */
  function ReadTimes(s: string): Option<(string, string)> {
    match TimestampLength(s)
    case None => None
    case Some(n) => if CharAt(s, n, ':') then Some((s[..n], s[n + 1..])) else None
  }

  function ReadPayload(s: string): Option<Grant> {
    match Fields(s, 8)
    case None => None
    case Some((f, rest)) =>
      match (ReadGeneration(f[6]), ReadTimes(rest))
      case (Some(generation), Some((issued, expires))) =>
        Some(Grant(f[0], f[1], f[2], f[3], f[4], f[5], generation, f[7], issued, expires))
      case _ => None
  }

  /** The six id and name fields and the hash hold no colon, and `issued_at` is a date-time.
      Nothing is asked of `expires_at`: it is the last field. */
  predicate Readable(g: Grant) {
    && NoColon(g.grantId) && NoColon(g.tenantId) && NoColon(g.principalId) && NoColon(g.capability)
    && NoColon(g.profileId) && NoColon(g.surfaceId) && NoColon(g.parametersHash)
    && IsTimestamp(g.issuedAt)
  }

  lemma TimesReadBack(issued: string, expires: string)
    requires IsTimestamp(issued)
    ensures ReadTimes(issued + ":" + expires) == Some((issued, expires))
  {
    var s := issued + ":" + expires;
    assert s == issued + (":" + expires);
    TimestampOfAppend(issued, ":" + expires);
    assert s[..|issued|] == issued && s[|issued| + 1..] == expires;
  }

  lemma TailIsTheTimes(parts: seq<string>)
    requires |parts| == 10
    ensures Join(parts[8..]) == parts[8] + ":" + parts[9]
  {}

  lemma PayloadOfReadable(g: Grant)
    requires Readable(g)
    ensures ReadPayload(CanonicalPayload(g)) == Some(g)
  {
    var parts := Parts(g);
    GenerationReadsBack(g.generation);
    FieldsOfJoin(parts, 8);
    TailIsTheTimes(parts);
    TimesReadBack(g.issuedAt, g.expiresAt);
  }

  lemma ReadTimesIsTimestamp(s: string)
    requires ReadTimes(s).Some?
    ensures IsTimestamp(ReadTimes(s).value.0)
  {
    var n := TimestampLength(s).value;
    PrefixKeepsDate(s, n);
    PrefixKeepsFractionAndOffset(s[19..]);
    assert s[..n][19..] == s[19..][..n - 19];
  }

  lemma PrefixKeepsDate(s: string, n: nat)
    requires DateAndTime(s) && 19 <= n <= |s|
    ensures DateAndTime(s[..n])
  {}

  lemma PrefixKeepsFractionAndOffset(r: string)
    requires OffsetLength(r[FractionLength(r)..]).Some?
    ensures var f := FractionLength(r);
            var o := OffsetLength(r[f..]).value;
            FractionLength(r[..f + o]) == f && OffsetLength(r[..f + o][f..]) == Some(o)
  {
    var f := FractionLength(r);
    var o := OffsetLength(r[f..]).value;
    PrefixKeepsFraction(r, f + o);
    PrefixKeepsOffset(r[f..]);
    assert r[..f + o][f..] == r[f..][..o];
  }

  lemma PrefixKeepsFraction(s: string, n: nat)
    requires FractionLength(s) < n <= |s|
    ensures FractionLength(s[..n]) == FractionLength(s)
  {}

  lemma PrefixKeepsOffset(s: string)
    requires OffsetLength(s).Some?
    ensures OffsetLength(s[..OffsetLength(s).value]) == OffsetLength(s)
  {}

  /** The payload can be read back to the ten fields it was made of exactly when the grant is
      `Readable`. */
  lemma PayloadReadsBack(g: Grant)
    ensures ReadPayload(CanonicalPayload(g)) == Some(g) <==> Readable(g)
  {
    if Readable(g) {
      PayloadOfReadable(g);
    } else if ReadPayload(CanonicalPayload(g)) == Some(g) {
      var (f, rest) := Fields(CanonicalPayload(g), 8).value;
      assert f[0] == g.grantId && f[1] == g.tenantId && f[2] == g.principalId && f[3] == g.capability;
      assert f[4] == g.profileId && f[5] == g.surfaceId && f[7] == g.parametersHash;
      ReadTimesIsTimestamp(rest);
      assert false;
    }
  }

  /** No two readable grants sign the same bytes. In particular an absent generation, and any two
      generations, stay apart. */
  lemma SignedBytesIdentifyTheGrant(g: Grant, h: Grant)
    requires Readable(g) && Readable(h)
    ensures CanonicalPayload(g) == CanonicalPayload(h) <==> g == h
  {
    PayloadReadsBack(g);
    PayloadReadsBack(h);
  }

  /** An id without a colon is what the signed bytes begin with, up to the first colon. */
  lemma PayloadNamesTheId(g: Grant, h: Grant)
    requires NoColon(g.grantId) && NoColon(h.grantId) && CanonicalPayload(g) == CanonicalPayload(h)
    ensures g.grantId == h.grantId
  {
    JoinTwo(Parts(g));
    JoinTwo(Parts(h));
    CutAfterField(g.grantId, Join(Parts(g)[1..]));
    CutAfterField(h.grantId, Join(Parts(h)[1..]));
  }

  /** Without the condition the signed bytes do not identify the grant: a colon moves text from one
      field to its neighbour. */
  lemma AColonMovesBetweenFields(g: Grant)
    ensures var a := g.(tenantId := "a:b", principalId := "c");
            var b := g.(tenantId := "a", principalId := "b:c");
            a != b && CanonicalPayload(a) == CanonicalPayload(b)
  {
    var a := g.(tenantId := "a:b", principalId := "c");
    var b := g.(tenantId := "a", principalId := "b:c");
    JoinSecondAndThird(Parts(a));
    JoinSecondAndThird(Parts(b));
    assert Parts(a)[3..] == Parts(b)[3..];
    assert "a:b" + ":" + "c" == "a" + ":" + "b:c";
    assert Parts(a)[1] == "a:b" && Parts(b)[1] == "a";
  }

  lemma JoinSecondAndThird(parts: seq<string>)
    requires |parts| == 10
    ensures Join(parts) == parts[0] + ":" + (parts[1] + ":" + parts[2]) + ":" + Join(parts[3..])
  {
    JoinTwo(parts);
    JoinTwo(parts[1..]);
    JoinTwo(parts[2..]);
    assert parts[1..][1..] == parts[2..] && parts[2..][1..] == parts[3..];
    Regroup(parts[0], parts[1], parts[2], Join(parts[3..]));
  }

  lemma JoinTwo(parts: seq<string>)
    requires |parts| > 1
    ensures Join(parts) == parts[0] + ":" + Join(parts[1..])
  {}

  lemma Regroup(p: string, q: string, r: string, rest: string)
    ensures p + ":" + (q + ":" + (r + ":" + rest)) == p + ":" + (q + ":" + r) + ":" + rest
  {}
}
