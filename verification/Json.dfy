/** Compact JSON as `serde_json::to_string` writes it for the values the desktop
    hashes, next to the text Python's `json.dumps` writes for the same values. */
module Json {
  import opened Wrappers
  import opened StringOrder

  /** The `serde_json::Value`s this program builds: no floats, no arrays. */
  datatype Value =
    | Null
    | Bool(b: bool)
    | Number(n: nat)
    | Text(s: string)
    | Object(fields: Fields)

  /** An object in the key order of serde_json's `Map` (a `BTreeMap`). */
  datatype Fields =
    | NoFields
    | Entry(key: string, value: Value, rest: Fields)

  // ---------------------------------------------------------------- objects

  /** Every key of `f` is above `low`. */
  predicate AllAbove(low: string, f: Fields) {
    match f
    case NoFields => true
    case Entry(k, _, rest) => Less(low, k) && AllAbove(low, rest)
  }

  predicate Sorted(f: Fields) {
    match f
    case NoFields => true
    case Entry(k, _, rest) => AllAbove(k, rest) && Sorted(rest)
  }

  function Lookup(f: Fields, key: string): Option<Value> {
    match f
    case NoFields => None
    case Entry(k, v, rest) => if k == key then Some(v) else Lookup(rest, key)
  }

  /** `BTreeMap::insert`. */
  function Insert(f: Fields, key: string, value: Value): Fields {
    match f
    case NoFields => Entry(key, value, NoFields)
    case Entry(k, v, rest) =>
      if key == k then Entry(k, value, rest)
      else if Less(key, k) then Entry(key, value, f)
      else Entry(k, v, Insert(rest, key, value))
  }

  lemma {:induction false} AllAboveWeakens(low: string, high: string, f: Fields)
    requires Less(low, high) && AllAbove(high, f)
    ensures AllAbove(low, f)
  {
    match f
    case NoFields =>
    case Entry(k, _, rest) =>
      LessIsTransitive(low, high, k);
      AllAboveWeakens(low, high, rest);
  }

  lemma {:induction false} AllAboveHasNo(low: string, f: Fields, key: string)
    requires AllAbove(low, f) && LessEq(key, low)
    ensures Lookup(f, key) == None
  {
    match f
    case NoFields =>
    case Entry(k, _, rest) =>
      if key != low { LessIsTransitive(key, low, k); }
      LessIsAsymmetric(key, k);
      AllAboveHasNo(low, rest, key);
  }

  lemma {:induction false} InsertKeepsAbove(low: string, f: Fields, key: string, value: Value)
    requires AllAbove(low, f) && Less(low, key)
    ensures AllAbove(low, Insert(f, key, value))
  {
    match f
    case NoFields =>
    case Entry(k, _, rest) =>
      InsertKeepsAbove(low, rest, key, value);
  }

  /** Inserting keeps the object sorted. */
  lemma {:induction false} InsertKeepsSorted(f: Fields, key: string, value: Value)
    requires Sorted(f)
    ensures Sorted(Insert(f, key, value))
  {
    match f
    case NoFields =>
    case Entry(k, _, rest) =>
      LessIsTotal(key, k);
      if Less(key, k) {
        AllAboveWeakens(key, k, rest);
      } else if key != k {
        InsertKeepsSorted(rest, key, value);
        InsertKeepsAbove(k, rest, key, value);
      }
  }

  /** Inserting changes the value under one key and no other. */
  lemma {:induction false} LookupInsert(f: Fields, key: string, value: Value, other: string)
    ensures Lookup(Insert(f, key, value), other) == if other == key then Some(value) else Lookup(f, other)
  {
    match f
    case NoFields =>
    case Entry(k, _, rest) =>
      LookupInsert(rest, key, value, other);
  }

  /** A sorted object is determined by what it maps each key to: this is why the order of
      insertion can never show in the text. */
  lemma {:induction false} SortedIsCanonical(f: Fields, g: Fields)
    requires Sorted(f) && Sorted(g)
    requires forall k :: Lookup(f, k) == Lookup(g, k)
    ensures f == g
  {
    match f
    case NoFields =>
      assert g.Entry? ==> Lookup(f, g.key) == Lookup(g, g.key);
    case Entry(k, v, rest) =>
      assert Lookup(g, k) == Lookup(f, k) == Some(v);
      if g.key != k {
        assert Lookup(f, g.key) == Lookup(g, g.key) == Some(g.value);
        LessIsTotal(k, g.key);
        if Less(k, g.key) {
          AllAboveWeakens(k, g.key, g.rest);
          AllAboveHasNo(k, g.rest, k);
        } else {
          AllAboveWeakens(g.key, k, rest);
          AllAboveHasNo(g.key, rest, g.key);
        }
        assert false;
      }
      AllAboveHasNo(k, rest, k);
      AllAboveHasNo(k, g.rest, k);
      forall key ensures Lookup(rest, key) == Lookup(g.rest, key) {
        assert Lookup(f, key) == Lookup(g, key);
      }
      SortedIsCanonical(rest, g.rest);
  }

  // ---------------------------------------------------------------- numerals

  predicate IsDigit(c: char) {
    '0' <= c <= '9'
  }

  predicate StartsWithDigit(s: string) {
    |s| > 0 && IsDigit(s[0])
  }

  function DigitChar(d: nat): (c: char)
    requires d < 10
    ensures IsDigit(c) && c as int - '0' as int == d
  {
    ('0' as int + d) as char
  }

  /** Rust's and Python's decimal rendering of a natural number. */
  function Decimal(n: nat): string {
    if n < 10 then [DigitChar(n)] else Decimal(n / 10) + [DigitChar(n % 10)]
  }

  /** The length of the longest prefix of decimal digits. */
  function DigitRun(s: string): (k: nat)
    ensures k <= |s|
    ensures forall i :: 0 <= i < k ==> IsDigit(s[i])
    ensures k < |s| ==> !IsDigit(s[k])
  {
    if !StartsWithDigit(s) then 0 else 1 + DigitRun(s[1..])
  }

  function DigitsValue(s: string): nat
    requires forall i :: 0 <= i < |s| ==> IsDigit(s[i])
  {
    if |s| == 0 then 0
    else
      assert IsDigit(s[|s| - 1]);
      10 * DigitsValue(s[..|s| - 1]) + (s[|s| - 1] as int - '0' as int)
  }

  lemma {:induction false} DecimalIsDigits(n: nat)
    ensures |Decimal(n)| > 0
    ensures forall i :: 0 <= i < |Decimal(n)| ==> IsDigit(Decimal(n)[i])
    ensures DigitsValue(Decimal(n)) == n
  {
    if n >= 10 {
      DecimalIsDigits(n / 10);
      var s := Decimal(n);
      assert s[..|s| - 1] == Decimal(n / 10);
    } else {
      assert Decimal(n)[..0] == [];
    }
  }

  lemma {:induction false} DigitRunOfAppend(s: string, t: string)
    requires forall i :: 0 <= i < |s| ==> IsDigit(s[i])
    requires !StartsWithDigit(t)
    ensures DigitRun(s + t) == |s|
  {
    if |s| == 0 {
      assert s + t == t;
    } else {
      assert (s + t)[1..] == s[1..] + t;
      DigitRunOfAppend(s[1..], t);
    }
  }

  // ---------------------------------------------------------------- strings

  function HexDigit(d: nat): (c: char)
    requires d < 16
  {
    if d < 10 then ('0' as int + d) as char else ('a' as int + (d - 10)) as char
  }

  function HexValue(c: char): Option<nat> {
    if '0' <= c <= '9' then Some(c as int - '0' as int)
    else if 'a' <= c <= 'f' then Some(c as int - 'a' as int + 10)
    else None
  }

  /** The two-character escapes of section 7 of RFC 8259 that both serializers use. */
  function ShortEscape(c: char): Option<char> {
    if c == '"' then Some('"')
    else if c == '\\' then Some('\\')
    else if c == 8 as char then Some('b')
    else if c == 9 as char then Some('t')
    else if c == 10 as char then Some('n')
    else if c == 12 as char then Some('f')
    else if c == 13 as char then Some('r')
    else None
  }

  function Unescape(c: char): Option<char> {
    if c == '"' then Some('"')
    else if c == '\\' then Some('\\')
    else if c == 'b' then Some(8 as char)
    else if c == 't' then Some(9 as char)
    else if c == 'n' then Some(10 as char)
    else if c == 'f' then Some(12 as char)
    else if c == 'r' then Some(13 as char)
    else None
  }

  function UnicodeEscape(u: nat): string
    requires u < 0x1_0000
  {
    ['\\', 'u', HexDigit(u / 16 / 16 / 16), HexDigit(u / 16 / 16 % 16), HexDigit(u / 16 % 16), HexDigit(u % 16)]
  }

  /** serde_json escapes the quote, the backslash and the controls below U+0020, and nothing else. */
  function EscapeChar(c: char): string {
    if ShortEscape(c).Some? then ['\\', ShortEscape(c).value]
    else if c as int < 0x20 then UnicodeEscape(c as int)
    else [c]
  }

  function EscapeText(s: string): string {
    if |s| == 0 then [] else EscapeChar(s[0]) + EscapeText(s[1..])
  }

  function Quote(s: string): string {
    ['"'] + EscapeText(s) + ['"']
  }

  // ---------------------------------------------------------------- encoder

  /** `serde_json::to_string`. */
  function Encode(v: Value): string {
    match v
    case Null => "null"
    case Bool(b) => if b then "true" else "false"
    case Number(n) => Decimal(n)
    case Text(s) => Quote(s)
    case Object(NoFields) => "{}"
    case Object(Entry(k, w, rest)) => "{" + Quote(k) + ":" + Encode(w) + EncodeRest(rest)
  }

  /** The members after the first, and the closing brace. */
  function EncodeRest(f: Fields): string {
    match f
    case NoFields => "}"
    case Entry(k, w, rest) => "," + Quote(k) + ":" + Encode(w) + EncodeRest(rest)
  }

  // ---------------------------------------------------------------- parser

  datatype Parsed<T> = Parsed(item: T, rest: string)

  /** Everything up to the closing quote, unescaped. */
  function ParseText(s: string): (r: Option<Parsed<string>>)
    ensures r.Some? ==> |r.value.rest| < |s|
    decreases |s|
  {
    if |s| == 0 then None
    else if s[0] == '"' then Some(Parsed([], s[1..]))
    else if s[0] != '\\' then Prepend(s[0], ParseText(s[1..]))
    else if |s| < 2 then None
    else if s[1] == 'u' then
      if |s| < 6 then None
      else
        var h := (HexValue(s[2]), HexValue(s[3]), HexValue(s[4]), HexValue(s[5]));
        if h.0.None? || h.1.None? || h.2.None? || h.3.None? then None
        else
          var u := h.0.value * 4096 + h.1.value * 256 + h.2.value * 16 + h.3.value;
          if 0xD800 <= u < 0xE000 || u >= 0x1_0000 then None
          else Prepend(u as char, ParseText(s[6..]))
    else
      match Unescape(s[1])
      case None => None
      case Some(c) => Prepend(c, ParseText(s[2..]))
  }

  function Prepend(c: char, p: Option<Parsed<string>>): Option<Parsed<string>> {
    match p
    case None => None
    case Some(Parsed(t, rest)) => Some(Parsed([c] + t, rest))
  }

  predicate HasPrefix(p: string, s: string) {
    |p| <= |s| && s[..|p|] == p
  }

  function ParseValue(s: string): (r: Option<Parsed<Value>>)
    ensures r.Some? ==> |r.value.rest| < |s|
    decreases |s|, 1
  {
    if |s| == 0 then None
    else if StartsWithDigit(s) then
      var k := DigitRun(s);
      Some(Parsed(Number(DigitsValue(s[..k])), s[k..]))
    else
      match s[0]
      case 'n' => if HasPrefix("null", s) then Some(Parsed(Null, s[4..])) else None
      case 't' => if HasPrefix("true", s) then Some(Parsed(Bool(true), s[4..])) else None
      case 'f' => if HasPrefix("false", s) then Some(Parsed(Bool(false), s[5..])) else None
      case '"' =>
        (match ParseText(s[1..])
         case None => None
         case Some(Parsed(t, rest)) => Some(Parsed(Text(t), rest)))
      case '{' => ParseObject(s[1..])
      case _ => None
  }

  /** What follows the opening brace. */
  function ParseObject(s: string): (r: Option<Parsed<Value>>)
    ensures r.Some? ==> |r.value.rest| < |s|
    decreases |s|, 2
  {
    if |s| > 0 && s[0] == '}' then Some(Parsed(Object(NoFields), s[1..]))
    else
      match ParseMember(s)
      case None => None
      case Some(Parsed(f, rest)) => Some(Parsed(Object(f), rest))
  }

  /** One member and all that follow it, up to and including the closing brace. */
  function ParseMember(s: string): (r: Option<Parsed<Fields>>)
    ensures r.Some? ==> |r.value.rest| < |s|
    decreases |s|, 0
  {
    if |s| == 0 || s[0] != '"' then None
    else
      match ParseText(s[1..])
      case None => None
      case Some(Parsed(k, s1)) =>
        if |s1| == 0 || s1[0] != ':' then None
        else
          match ParseValue(s1[1..])
          case None => None
          case Some(Parsed(v, s2)) =>
            match ParseMoreMembers(s2)
            case None => None
            case Some(Parsed(f, s3)) => Some(Parsed(Entry(k, v, f), s3))
  }

  function ParseMoreMembers(s: string): (r: Option<Parsed<Fields>>)
    ensures r.Some? ==> |r.value.rest| < |s|
    decreases |s|, 1
  {
    if |s| == 0 then None
    else if s[0] == '}' then Some(Parsed(NoFields, s[1..]))
    else if s[0] == ',' then ParseMember(s[1..])
    else None
  }

  // ---------------------------------------------------------------- round trip

  lemma HexDigitHasItsValue(d: nat)
    requires d < 16
    ensures HexValue(HexDigit(d)) == Some(d)
  {}

  lemma UnescapeUndoesShortEscape(c: char)
    requires ShortEscape(c).Some?
    ensures ShortEscape(c).value != 'u' && Unescape(ShortEscape(c).value) == Some(c)
  {}

  lemma ParseShortEscape(c: char, t: string)
    requires ShortEscape(c).Some?
    ensures ParseText(['\\', ShortEscape(c).value] + t) == Prepend(c, ParseText(t))
  {
    var s := ['\\', ShortEscape(c).value] + t;
    UnescapeUndoesShortEscape(c);
    assert s[0] == '\\' && s[1] == ShortEscape(c).value && s[2..] == t;
  }

  lemma ParseControlEscape(c: char, t: string)
    requires c as int < 0x20
    ensures ParseText(UnicodeEscape(c as int) + t) == Prepend(c, ParseText(t))
  {
    var s := UnicodeEscape(c as int) + t;
    assert s[0] == '\\' && s[1] == 'u' && s[6..] == t;
    HexDigitHasItsValue(0);
    HexDigitHasItsValue(c as int / 16);
    HexDigitHasItsValue(c as int % 16);
    assert s[2] == s[3] == HexDigit(0) && s[4] == HexDigit(c as int / 16) && s[5] == HexDigit(c as int % 16);
  }

  lemma ParseEscapedChar(c: char, t: string)
    ensures ParseText(EscapeChar(c) + t) == Prepend(c, ParseText(t))
  {
    if ShortEscape(c).Some? {
      ParseShortEscape(c, t);
    } else if c as int < 0x20 {
      ParseControlEscape(c, t);
    } else {
      assert ([c] + t)[1..] == t;
    }
  }

  lemma {:induction false} ParseEscapedText(s: string, t: string)
    ensures ParseText(EscapeText(s) + ['"'] + t) == Some(Parsed(s, t))
  {
    if |s| == 0 {
      assert (EscapeText(s) + ['"'] + t)[1..] == t;
    } else {
      var tail := EscapeText(s[1..]) + ['"'] + t;
      assert EscapeText(s) + ['"'] + t == EscapeChar(s[0]) + tail;
      ParseEscapedChar(s[0], tail);
      ParseEscapedText(s[1..], t);
      assert [s[0]] + s[1..] == s;
    }
  }

  lemma ParseQuoted(s: string, t: string)
    ensures (Quote(s) + t)[0] == '"'
    ensures ParseText((Quote(s) + t)[1..]) == Some(Parsed(s, t))
  {
    ParseEscapedText(s, t);
    assert (Quote(s) + t)[1..] == EscapeText(s) + ['"'] + t;
  }

  lemma ParseMemberInSteps(s: string, k: string, s1: string, w: Value, s2: string, f: Fields, t: string)
    requires |s| > 0 && s[0] == '"' && ParseText(s[1..]) == Some(Parsed(k, s1))
    requires |s1| > 0 && s1[0] == ':' && ParseValue(s1[1..]) == Some(Parsed(w, s2))
    requires ParseMoreMembers(s2) == Some(Parsed(f, t))
    ensures ParseMember(s) == Some(Parsed(Entry(k, w, f), t))
  {}

  lemma MemberText(q: string, e: string, r: string, t: string)
    ensures q + ":" + e + r + t == q + (":" + (e + (r + t)))
    ensures (":" + (e + (r + t)))[1..] == e + (r + t)
  {}

  lemma RestText(q: string, e: string, r: string, t: string)
    ensures ("," + q + ":" + e + r + t)[0] == ','
    ensures ("," + q + ":" + e + r + t)[1..] == q + ":" + e + r + t
  {}

  lemma {:induction false} ParseEncodedMember(k: string, w: Value, f: Fields, t: string)
    ensures ParseMember(Quote(k) + ":" + Encode(w) + EncodeRest(f) + t) == Some(Parsed(Entry(k, w, f), t))
    decreases Entry(k, w, f), 0
  {
    var q, e, r := Quote(k), Encode(w), EncodeRest(f);
    var s1 := ":" + (e + (r + t));
    MemberText(q, e, r, t);
    ParseQuoted(k, s1);
    ParseEncodedRest(f, t);
    ParseEncoded(w, r + t);
    ParseMemberInSteps(q + s1, k, s1, w, r + t, f, t);
  }

  lemma {:induction false} ParseEncodedRest(f: Fields, t: string)
    ensures !StartsWithDigit(EncodeRest(f) + t)
    ensures ParseMoreMembers(EncodeRest(f) + t) == Some(Parsed(f, t))
    decreases f, 1
  {
    match f
    case NoFields =>
      assert ("}" + t)[1..] == t;
    case Entry(k, w, g) =>
      RestText(Quote(k), Encode(w), EncodeRest(g), t);
      ParseEncodedMember(k, w, g, t);
  }

  lemma ParseKeyword(v: Value, t: string)
    requires v.Null? || v.Bool?
    ensures ParseValue(Encode(v) + t) == Some(Parsed(v, t))
  {}

  lemma ParseNumber(n: nat, t: string)
    requires !StartsWithDigit(t)
    ensures ParseValue(Decimal(n) + t) == Some(Parsed(Number(n), t))
  {
    var s := Decimal(n) + t;
    DecimalIsDigits(n);
    DigitRunOfAppend(Decimal(n), t);
    assert IsDigit(s[0]);
    assert s[..|Decimal(n)|] == Decimal(n) && s[|Decimal(n)|..] == t;
  }

  lemma ParseBrace(body: string)
    ensures ParseValue("{" + body) == ParseObject(body)
  {
    assert ("{" + body)[0] == '{' && ("{" + body)[1..] == body;
  }

  lemma ParseEmptyObject(t: string)
    ensures ParseValue("{}" + t) == Some(Parsed(Object(NoFields), t))
  {
    ParseBrace("}" + t);
    assert "{}" + t == "{" + ("}" + t);
    assert ("}" + t)[1..] == t;
  }

  lemma ParseBraced(body: string, f: Fields, t: string)
    requires |body| > 0 && body[0] == '"' && ParseMember(body) == Some(Parsed(f, t))
    ensures ParseValue("{" + body) == Some(Parsed(Object(f), t))
  {
    ParseBrace(body);
  }

  lemma ObjectText(k: string, w: Value, f: Fields, t: string)
    ensures Encode(Object(Entry(k, w, f))) + t == "{" + (Quote(k) + ":" + Encode(w) + EncodeRest(f) + t)
  {}

  /** Reading back what the encoder wrote gives the value and leaves what follows it. A number
      is self-delimiting only if no digit follows; inside an object that is always so. */
  lemma {:induction false} ParseEncoded(v: Value, t: string)
    requires !StartsWithDigit(t)
    ensures ParseValue(Encode(v) + t) == Some(Parsed(v, t))
    decreases v
  {
    match v
    case Null => ParseKeyword(v, t);
    case Bool(_) => ParseKeyword(v, t);
    case Number(n) => ParseNumber(n, t);
    case Text(x) =>
      ParseQuoted(x, t);
      assert (Quote(x) + t)[0] == '"';
    case Object(NoFields) => ParseEmptyObject(t);
    case Object(Entry(k, w, f)) =>
      ParseEncodedMember(k, w, f, t);
      ObjectText(k, w, f, t);
      ParseBraced(Quote(k) + ":" + Encode(w) + EncodeRest(f) + t, Entry(k, w, f), t);
  }

  /** Two values with the same text are the same value. */
  lemma EncodeIsInjective(v: Value, w: Value)
    requires Encode(v) == Encode(w)
    ensures v == w
  {
    ParseEncoded(v, "");
    ParseEncoded(w, "");
    assert Encode(v) + "" == Encode(w) + "";
  }
}
