/** The navigation policy: which destinations a surface may load (`evaluate_navigation`), with the
    octet and mask tests related to the address blocks the standards define. */
module NavigationPolicy {
  import opened Ascii
  import opened Wrappers

  datatype Classification =
    | Loopback
    | PrivateIpv4
    | LinkLocalIpv4
    | ThisNetworkIpv4
    | CarrierGradeNat
    | UniqueLocalIpv6
    | LinkLocalIpv6
    | LocalHostname

  datatype DenyReason =
    | Malformed
    | SchemeNotAllowed(scheme: string)
    | PrivateNetworkAccess(classification: Classification)

  datatype Decision = Allow | Deny(reason: DenyReason)

  type Octet = n: nat | n < 256

  datatype Ipv4 = Ipv4(a: Octet, b: Octet, c: Octet, d: Octet)

  /** Eight 16-bit segments, most significant first. */
  datatype Ipv6 = Ipv6(s0: bv16, s1: bv16, s2: bv16, s3: bv16, s4: bv16, s5: bv16, s6: bv16, s7: bv16)

  datatype Host = Domain(name: string) | V4(v4: Ipv4) | V6(v6: Ipv6)

  /** What the `url` crate makes of an absolute URL. */
  datatype ParsedUrl = ParsedUrl(scheme: string, host: Option<Host>)

  /** A navigation attempt: the parse of its URI, if it has one, and the two trigger flags. */
  datatype Request = Request(parsed: Option<ParsedUrl>, isUserInitiated: bool, isRedirected: bool)

  // ---------------------------------------------------------------- the policy

  function EvaluateNavigation(r: Request): Decision {
    match r.parsed
    case None => Deny(Malformed)
    case Some(url) =>
      if url.scheme != "http" && url.scheme != "https" then Deny(SchemeNotAllowed(url.scheme))
      else
        match url.host
        case None => Deny(Malformed)
        case Some(host) =>
          match ClassifyHost(host)
          case Some(c) => Deny(PrivateNetworkAccess(c))
          case None => Allow
  }

  function ClassifyHost(host: Host): Option<Classification> {
    match host
    case Domain(name) => if EqIgnoreAsciiCase(TrimDots(name), "localhost") then Some(LocalHostname) else None
    case V4(ip) => ClassifyIpv4(ip)
    case V6(ip) => ClassifyIpv6(ip)
  }

  /** `trim_end_matches('.')`. */
  function TrimDots(s: string): string {
    if |s| > 0 && s[|s| - 1] == '.' then TrimDots(s[..|s| - 1]) else s
  }

  predicate EqIgnoreAsciiCase(s: string, t: string) {
    |s| == |t| && forall i :: 0 <= i < |s| ==> AsciiLower(s[i]) == AsciiLower(t[i])
  }

  function ClassifyIpv4(ip: Ipv4): Option<Classification> {
    if ip.a == 127 then Some(Loopback)
    else if ip.a == 10 then Some(PrivateIpv4)
    else if ip.a == 172 && 16 <= ip.b <= 31 then Some(PrivateIpv4)
    else if ip.a == 192 && ip.b == 168 then Some(PrivateIpv4)
    else if ip.a == 169 && ip.b == 254 then Some(LinkLocalIpv4)
    else if ip.a == 0 then Some(ThisNetworkIpv4)
    else if ip.a == 100 && 64 <= ip.b <= 127 then Some(CarrierGradeNat)
    else None
  }

  function HighOctet(s: bv16): Octet {
    s as nat / 256
  }

  function LowOctet(s: bv16): Octet {
    s as nat % 256
  }

  /** `Ipv6Addr::to_ipv4_mapped`. */
  function ToIpv4Mapped(ip: Ipv6): Option<Ipv4> {
    if ip.s0 == 0 && ip.s1 == 0 && ip.s2 == 0 && ip.s3 == 0 && ip.s4 == 0 && ip.s5 == 0xFFFF then
      Some(Ipv4(HighOctet(ip.s6), LowOctet(ip.s6), HighOctet(ip.s7), LowOctet(ip.s7)))
    else None
  }

  function ClassifyIpv6(ip: Ipv6): Option<Classification> {
    if ip == Ipv6(0, 0, 0, 0, 0, 0, 0, 1) then Some(Loopback)
    else
      match ToIpv4Mapped(ip)
      case Some(v4) => ClassifyIpv4(v4)
      case None => ClassifyPrefix(ip.s0)
  }

  function ClassifyPrefix(s0: bv16): Option<Classification> {
    if s0 & 0xFE00 == 0xFC00 then Some(UniqueLocalIpv6)
    else if s0 & 0xFFC0 == 0xFE80 then Some(LinkLocalIpv6)
    else None
  }

  // ---------------------------------------------------------------- address blocks

  function Number4(ip: Ipv4): nat {
    ip.a * 0x100_0000 + ip.b * 0x1_0000 + ip.c * 0x100 + ip.d
  }

  /** The 2^size-address block that starts at `first`; `first` is a multiple of its size. */
  datatype Block = Block(first: nat, size: nat, kind: Classification)

  predicate Contains(b: Block, address: nat) {
    b.first <= address < b.first + b.size
  }

  /** 127.0.0.0/8 (section 3.2.1.3 of RFC 1122), 10.0.0.0/8, 172.16.0.0/12 and 192.168.0.0/16 (section
      3 of RFC 1918), 169.254.0.0/16 (section 2.1 of RFC 3927), 0.0.0.0/8 (section 3.2.1.3 of RFC 1122),
      100.64.0.0/10 (section 7 of RFC 6598). */
  const BLOCKS4: seq<Block> := [
    Block(0x7F00_0000, 0x100_0000, Loopback),
    Block(0x0A00_0000, 0x100_0000, PrivateIpv4),
    Block(0xAC10_0000, 0x10_0000, PrivateIpv4),
    Block(0xC0A8_0000, 0x1_0000, PrivateIpv4),
    Block(0xA9FE_0000, 0x1_0000, LinkLocalIpv4),
    Block(0x0000_0000, 0x100_0000, ThisNetworkIpv4),
    Block(0x6440_0000, 0x40_0000, CarrierGradeNat)]

  /** The octet tests are membership in the standard blocks: an address is given class `c` exactly
      when some block of class `c` contains it. */
  lemma Ipv4ClassIsBlockMembership(ip: Ipv4, c: Classification)
    ensures ClassifyIpv4(ip) == Some(c)
            <==> exists i :: 0 <= i < |BLOCKS4| && Contains(BLOCKS4[i], Number4(ip)) && BLOCKS4[i].kind == c
  {
    OctetTests(ip);
    var n := Number4(ip);
    if ClassifyIpv4(ip) == Some(c) {
      var i := if ip.a == 127 then 0 else if ip.a == 10 then 1 else if ip.a == 172 then 2
               else if ip.a == 192 then 3 else if ip.a == 169 then 4 else if ip.a == 0 then 5 else 6;
      assert Contains(BLOCKS4[i], n) && BLOCKS4[i].kind == c;
    }
  }

  lemma OctetTests(ip: Ipv4)
    ensures var n := Number4(ip);
            && (Contains(BLOCKS4[0], n) <==> ip.a == 127)
            && (Contains(BLOCKS4[1], n) <==> ip.a == 10)
            && (Contains(BLOCKS4[2], n) <==> ip.a == 172 && 16 <= ip.b <= 31)
            && (Contains(BLOCKS4[3], n) <==> ip.a == 192 && ip.b == 168)
            && (Contains(BLOCKS4[4], n) <==> ip.a == 169 && ip.b == 254)
            && (Contains(BLOCKS4[5], n) <==> ip.a == 0)
            && (Contains(BLOCKS4[6], n) <==> ip.a == 100 && 64 <= ip.b <= 127)
  {}

  /** No address is in two blocks, so the order of the tests cannot matter. */
  lemma BlocksAreDisjoint(address: nat, i: nat, j: nat)
    requires i < |BLOCKS4| && j < |BLOCKS4|
    requires Contains(BLOCKS4[i], address) && Contains(BLOCKS4[j], address)
    ensures i == j
  {}

  type Segment = n: nat | n < 0x1_0000

  /** The segments as numbers. */
  datatype Segments = Segments(
    a: Segment, b: Segment, c: Segment, d: Segment, e: Segment, f: Segment, g: Segment, h: Segment)

  function SegmentOf(w: bv16): Segment {
    w as nat
  }

  function SegmentsOf(ip: Ipv6): Segments {
    Segments(SegmentOf(ip.s0), SegmentOf(ip.s1), SegmentOf(ip.s2), SegmentOf(ip.s3),
             SegmentOf(ip.s4), SegmentOf(ip.s5), SegmentOf(ip.s6), SegmentOf(ip.s7))
  }

  function Number6(v: Segments): nat {
    Word(v.a, v.b) * 0x1_0000_0000_0000_0000_0000_0000 + Word(v.c, v.d) * 0x1_0000_0000_0000_0000
    + Word(v.e, v.f) * 0x1_0000_0000 + Word(v.g, v.h)
  }

  function Word(x: Segment, y: Segment): nat {
    x * 0x1_0000 + y
  }

  /** ::1 (section 2.5.3 of RFC 4291). */
  const LOOPBACK6 := Block(1, 1, Loopback)
  /** fc00::/7 (section 3.1 of RFC 4193). */
  const UNIQUE_LOCAL6 :=
    Block(0xFC00_0000_0000_0000_0000_0000_0000_0000, 0x200_0000_0000_0000_0000_0000_0000_0000, UniqueLocalIpv6)
  /** fe80::/10 (section 2.5.6 of RFC 4291). */
  const LINK_LOCAL6 :=
    Block(0xFE80_0000_0000_0000_0000_0000_0000_0000, 0x40_0000_0000_0000_0000_0000_0000_0000, LinkLocalIpv6)
  /** ::ffff:0:0/96, the IPv4-mapped addresses (section 2.5.5.2 of RFC 4291). */
  const MAPPED_FIRST: nat := 0xFFFF_0000_0000
  const MAPPED_SIZE: nat := 0x1_0000_0000

  predicate IsMapped(n: nat) {
    MAPPED_FIRST <= n < MAPPED_FIRST + MAPPED_SIZE
  }

  /** What `ClassifyIpv6` says of an address, in terms of numbers instead of bits. */
  function ClassifySegments(v: Segments): Option<Classification> {
    if v == Segments(0, 0, 0, 0, 0, 0, 0, 1) then Some(Loopback)
    else if MappedPrefix(v) then ClassifyIpv4(Embedded(v))
    else ClassifyRange(v.a)
  }

  function ClassifyRange(a: Segment): Option<Classification> {
    if 0xFC00 <= a < 0xFE00 then Some(UniqueLocalIpv6)
    else if 0xFE80 <= a < 0xFEC0 then Some(LinkLocalIpv6)
    else None
  }

  function Embedded(v: Segments): Ipv4 {
    Ipv4(v.g / 256, v.g % 256, v.h / 256, v.h % 256)
  }

  lemma LoopbackBits(ip: Ipv6)
    ensures ip == Ipv6(0, 0, 0, 0, 0, 0, 0, 1) <==> SegmentsOf(ip) == Segments(0, 0, 0, 0, 0, 0, 0, 1)
  {}

  predicate MappedPrefix(v: Segments) {
    v.a == 0 && v.b == 0 && v.c == 0 && v.d == 0 && v.e == 0 && v.f == 0xFFFF
  }

  lemma MappedBits(ip: Ipv6)
    ensures ToIpv4Mapped(ip).Some? <==> MappedPrefix(SegmentsOf(ip))
  {}

  lemma EmbeddedBits(ip: Ipv6)
    ensures ToIpv4Mapped(ip).Some? ==> ToIpv4Mapped(ip).value == Embedded(SegmentsOf(ip))
  {}

  lemma MasksDecideRanges(w: bv16)
    ensures ClassifyPrefix(w) == ClassifyRange(w as nat)
  {}

  /** The bit tests decide numeric ranges. */
  lemma BitsDecideRanges(ip: Ipv6)
    ensures ClassifyIpv6(ip) == ClassifySegments(SegmentsOf(ip))
  {
    LoopbackBits(ip);
    MappedBits(ip);
    EmbeddedBits(ip);
    MasksDecideRanges(ip.s0);
  }

  lemma NumberTests(v: Segments)
    ensures var n := Number6(v);
            && (Contains(LOOPBACK6, n) <==> v == Segments(0, 0, 0, 0, 0, 0, 0, 1))
            && (IsMapped(n) <==> MappedPrefix(v))
            && (IsMapped(n) ==> n == MAPPED_FIRST + Word(v.g, v.h))
            && (Contains(UNIQUE_LOCAL6, n) <==> 0xFC00 <= v.a < 0xFE00)
            && (Contains(LINK_LOCAL6, n) <==> 0xFE80 <= v.a < 0xFEC0)
  {}

  lemma EmbeddedNumber(v: Segments)
    ensures Number4(Embedded(v)) == Word(v.g, v.h)
  {}

  lemma Number4IsInjective(x: Ipv4, y: Ipv4)
    requires Number4(x) == Number4(y)
    ensures x == y
  {
    assert x.a == y.a;
    assert x.b == y.b;
    assert x.c == y.c;
  }

  /** An IPv4-mapped address is classified exactly as the IPv4 address it embeds. */
  lemma MappedClassifiesAsEmbedded(ip: Ipv6, v4: Ipv4)
    ensures Number6(SegmentsOf(ip)) == MAPPED_FIRST + Number4(v4) ==> ClassifyIpv6(ip) == ClassifyIpv4(v4)
  {
    BitsDecideRanges(ip);
    if Number6(SegmentsOf(ip)) == MAPPED_FIRST + Number4(v4) {
      MappedSegments(SegmentsOf(ip), v4);
    }
  }

  lemma MappedSegments(v: Segments, v4: Ipv4)
    requires Number6(v) == MAPPED_FIRST + Number4(v4)
    ensures ClassifySegments(v) == ClassifyIpv4(v4)
  {
    NumberTests(v);
    EmbeddedNumber(v);
    Number4IsInjective(Embedded(v), v4);
  }

  /** Every other address is classified by the blocks that contain it. */
  lemma Ipv6ClassIsBlockMembership(ip: Ipv6)
    ensures var n := Number6(SegmentsOf(ip));
            !IsMapped(n) ==>
              ClassifyIpv6(ip) ==
              if Contains(LOOPBACK6, n) then Some(Loopback)
              else if Contains(UNIQUE_LOCAL6, n) then Some(UniqueLocalIpv6)
              else if Contains(LINK_LOCAL6, n) then Some(LinkLocalIpv6)
              else None
  {
    BitsDecideRanges(ip);
    NumberTests(SegmentsOf(ip));
  }

  // ---------------------------------------------------------------- what is allowed

  function Dots(k: nat): string {
    seq(k, _ => '.')
  }

  /** A case variant of "localhost" followed by any number of dots. */
  ghost predicate NamesThisMachine(name: string) {
    exists k: nat, stem: string :: name == stem + Dots(k) && EqIgnoreAsciiCase(stem, "localhost")
  }

  lemma {:induction false} TrimDotsSplits(s: string) returns (k: nat)
    ensures s == TrimDots(s) + Dots(k)
    ensures TrimDots(s) != "" ==> TrimDots(s)[|TrimDots(s)| - 1] != '.'
  {
    if |s| > 0 && s[|s| - 1] == '.' {
      k := TrimDotsSplits(s[..|s| - 1]);
      assert s == s[..|s| - 1] + ".";
      assert Dots(k + 1) == Dots(k) + ".";
      k := k + 1;
    } else {
      k := 0;
    }
  }

  lemma {:induction false} TrimDotsOfStem(stem: string, k: nat)
    requires stem != "" ==> stem[|stem| - 1] != '.'
    ensures TrimDots(stem + Dots(k)) == stem
  {
    if k == 0 {
      assert stem + Dots(0) == stem;
    } else {
      var s := stem + Dots(k);
      assert s[..|s| - 1] == stem + Dots(k - 1);
      TrimDotsOfStem(stem, k - 1);
    }
  }

  lemma LocalNamesAreRecognized(name: string)
    ensures EqIgnoreAsciiCase(TrimDots(name), "localhost") <==> NamesThisMachine(name)
  {
    var k := TrimDotsSplits(name);
    if NamesThisMachine(name) {
      var k', stem :| name == stem + Dots(k') && EqIgnoreAsciiCase(stem, "localhost");
      assert AsciiLower(stem[8]) == AsciiLower("localhost"[8]) == 't';
      TrimDotsOfStem(stem, k');
    }
  }

  predicate InBlocks4(n: nat) {
    exists i :: 0 <= i < |BLOCKS4| && Contains(BLOCKS4[i], n)
  }

  predicate InBlocks6(n: nat) {
    || Contains(LOOPBACK6, n) || Contains(UNIQUE_LOCAL6, n) || Contains(LINK_LOCAL6, n)
    || (IsMapped(n) && InBlocks4(n - MAPPED_FIRST))
  }

  /** A host outside every local or private range, by its number or by its name. */
  ghost predicate PublicHost(host: Host) {
    match host
    case Domain(name) => !NamesThisMachine(name)
    case V4(ip) => !InBlocks4(Number4(ip))
    case V6(ip) => !InBlocks6(Number6(SegmentsOf(ip)))
  }

  lemma Ipv4UnclassifiedIsPublic(ip: Ipv4)
    ensures ClassifyIpv4(ip) == None <==> !InBlocks4(Number4(ip))
  {
    if InBlocks4(Number4(ip)) {
      var i :| 0 <= i < |BLOCKS4| && Contains(BLOCKS4[i], Number4(ip));
      Ipv4ClassIsBlockMembership(ip, BLOCKS4[i].kind);
    }
    if ClassifyIpv4(ip).Some? {
      Ipv4ClassIsBlockMembership(ip, ClassifyIpv4(ip).value);
    }
  }

  lemma MappedIsInNoOtherBlock(n: nat)
    requires IsMapped(n)
    ensures InBlocks6(n) <==> InBlocks4(n - MAPPED_FIRST)
  {}

  lemma SegmentsUnclassifiedIsPublic(v: Segments)
    ensures ClassifySegments(v) == None <==> !InBlocks6(Number6(v))
  {
    var n := Number6(v);
    NumberTests(v);
    if IsMapped(n) {
      EmbeddedNumber(v);
      MappedIsInNoOtherBlock(n);
      Ipv4UnclassifiedIsPublic(Embedded(v));
    }
  }

  lemma UnclassifiedIsPublic(host: Host)
    ensures ClassifyHost(host) == None <==> PublicHost(host)
  {
    match host
    case Domain(name) => LocalNamesAreRecognized(name);
    case V4(ip) => Ipv4UnclassifiedIsPublic(ip);
    case V6(ip) =>
      BitsDecideRanges(ip);
      SegmentsUnclassifiedIsPublic(SegmentsOf(ip));
  }

  /** The policy allows exactly the parsed http and https requests whose host is public. The two
      trigger flags do not appear. */
  lemma AllowedExactly(r: Request)
    ensures EvaluateNavigation(r) == Allow
            <==> && r.parsed.Some? && r.parsed.value.scheme in {"http", "https"}
                 && r.parsed.value.host.Some? && PublicHost(r.parsed.value.host.value)
  {
    if r.parsed.Some? && r.parsed.value.host.Some? {
      UnclassifiedIsPublic(r.parsed.value.host.value);
    }
  }

  // ---------------------------------------------------------------- why a request is denied

  /** Some IPv4 block of this class contains the address. */
  predicate InBlockOf(c: Classification, n: nat) {
    exists i :: 0 <= i < |BLOCKS4| && Contains(BLOCKS4[i], n) && BLOCKS4[i].kind == c
  }

  /** The host is of this class, by its number or by its name. */
  ghost predicate HostIs(host: Host, c: Classification) {
    match host
    case Domain(name) => NamesThisMachine(name) && c == LocalHostname
    case V4(ip) => InBlockOf(c, Number4(ip))
    case V6(ip) =>
      var n := Number6(SegmentsOf(ip));
      || (Contains(LOOPBACK6, n) && c == Loopback) || (Contains(UNIQUE_LOCAL6, n) && c == UniqueLocalIpv6)
      || (Contains(LINK_LOCAL6, n) && c == LinkLocalIpv6) || (IsMapped(n) && InBlockOf(c, n - MAPPED_FIRST))
  }

  lemma SegmentsClassIs(v: Segments, c: Classification)
    ensures ClassifySegments(v) == Some(c)
            <==> var n := Number6(v);
                 || (Contains(LOOPBACK6, n) && c == Loopback) || (Contains(UNIQUE_LOCAL6, n) && c == UniqueLocalIpv6)
                 || (Contains(LINK_LOCAL6, n) && c == LinkLocalIpv6) || (IsMapped(n) && InBlockOf(c, n - MAPPED_FIRST))
  {
    NumberTests(v);
    if IsMapped(Number6(v)) {
      EmbeddedNumber(v);
      Ipv4ClassIsBlockMembership(Embedded(v), c);
    }
  }

  lemma ClassIs(host: Host, c: Classification)
    ensures ClassifyHost(host) == Some(c) <==> HostIs(host, c)
  {
    match host
    case Domain(name) => LocalNamesAreRecognized(name);
    case V4(ip) => Ipv4ClassIsBlockMembership(ip, c);
    case V6(ip) =>
      BitsDecideRanges(ip);
      SegmentsClassIs(SegmentsOf(ip), c);
  }

  /** Each denial has its reason: no URL or no host, the scheme it names, or the class of the host. */
  lemma DenialsHaveReasons(r: Request, scheme: string, c: Classification)
    ensures var web := r.parsed.Some? && r.parsed.value.scheme in {"http", "https"};
            && (EvaluateNavigation(r) == Deny(Malformed) <==> r.parsed.None? || (web && r.parsed.value.host.None?))
            && (EvaluateNavigation(r) == Deny(SchemeNotAllowed(scheme))
                <==> r.parsed.Some? && !web && r.parsed.value.scheme == scheme)
            && (EvaluateNavigation(r) == Deny(PrivateNetworkAccess(c))
                <==> web && r.parsed.value.host.Some? && HostIs(r.parsed.value.host.value, c))
  {
    if r.parsed.Some? && r.parsed.value.host.Some? {
      ClassIs(r.parsed.value.host.value, c);
    }
  }
}
