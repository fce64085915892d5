/** The text the Python backend hashes when it mints a grant,
    `json.dumps(payload, sort_keys=True, separators=(",", ":"))`, compared with the text the desktop
    hashes when it redeems one. Python's default `ensure_ascii` escapes every character outside
    U+0020..U+007E; serde_json writes them as they are. */
module BackendEncoding {
  import opened Wrappers
  import opened Json
  import opened GrantParameters

  function PythonEscapeChar(c: char): string {
    var u := c as int;
    if ShortEscape(c).Some? then ['\\', ShortEscape(c).value]
    else if 0x20 <= u <= 0x7E then [c]
    else if u < 0x1_0000 then UnicodeEscape(u)
    else
      UnicodeEscape(0xD800 + (u - 0x1_0000) / 1024 % 1024) + UnicodeEscape(0xDC00 + (u - 0x1_0000) % 1024)
  }

  function PythonEscapeText(s: string): string {
    if |s| == 0 then [] else PythonEscapeChar(s[0]) + PythonEscapeText(s[1..])
  }

  function PythonQuote(s: string): string {
    ['"'] + PythonEscapeText(s) + ['"']
  }

  function PythonEncode(v: Value): string {
    match v
    case Null => "null"
    case Bool(b) => if b then "true" else "false"
    case Number(n) => Decimal(n)
    case Text(s) => PythonQuote(s)
    case Object(NoFields) => "{}"
    case Object(Entry(k, w, rest)) => "{" + PythonQuote(k) + ":" + PythonEncode(w) + PythonEncodeRest(rest)
  }

  function PythonEncodeRest(f: Fields): string {
    match f
    case NoFields => "}"
    case Entry(k, w, rest) => "," + PythonQuote(k) + ":" + PythonEncode(w) + PythonEncodeRest(rest)
  }

  /** No character above U+007E. */
  predicate Plain(s: string) {
    forall i :: 0 <= i < |s| ==> s[i] as int < 0x7F
  }

  predicate PlainOption(o: Option<string>) {
    o.Some? ==> Plain(o.value)
  }

  predicate PlainValue(v: Value) {
    match v
    case Text(s) => Plain(s)
    case Object(f) => PlainFields(f)
    case _ => true
  }

  predicate PlainFields(f: Fields) {
    match f
    case NoFields => true
    case Entry(k, v, rest) => Plain(k) && PlainValue(v) && PlainFields(rest)
  }

  lemma PlainConcat(s: string, t: string)
    ensures Plain(s + t) <==> Plain(s) && Plain(t)
  {
    if Plain(s + t) {
      forall i | 0 <= i < |s| ensures s[i] as int < 0x7F { assert (s + t)[i] == s[i]; }
      forall i | 0 <= i < |t| ensures t[i] as int < 0x7F { assert (s + t)[|s| + i] == t[i]; }
    }
  }

  lemma PythonCharIsPlain(c: char)
    ensures Plain(PythonEscapeChar(c))
  {}

  lemma {:induction false} PythonTextIsPlain(s: string)
    ensures Plain(PythonEscapeText(s))
  {
    if |s| > 0 {
      PythonTextIsPlain(s[1..]);
      PythonCharIsPlain(s[0]);
      PlainConcat(PythonEscapeChar(s[0]), PythonEscapeText(s[1..]));
    }
  }

  lemma SerdeCharIsPlain(c: char)
    ensures Plain(EscapeChar(c)) <==> c as int < 0x7F
    ensures c as int < 0x7F ==> EscapeChar(c) == PythonEscapeChar(c)
  {
    if c as int >= 0x7F {
      assert EscapeChar(c)[0] == c;
    }
  }

  /** serde_json's text is plain exactly when the string is. */
  lemma {:induction false} SerdeTextIsPlain(s: string)
    ensures Plain(EscapeText(s)) <==> Plain(s)
    ensures Plain(s) ==> EscapeText(s) == PythonEscapeText(s)
  {
    if |s| > 0 {
      SerdeTextIsPlain(s[1..]);
      SerdeCharIsPlain(s[0]);
      PlainConcat(EscapeChar(s[0]), EscapeText(s[1..]));
      PlainConcat([s[0]], s[1..]);
      assert [s[0]] + s[1..] == s;
      assert Plain([s[0]]) ==> [s[0]][0] as int < 0x7F;
    }
  }

  lemma QuotesArePlain(s: string)
    ensures Plain(Quote(s)) <==> Plain(s)
    ensures Plain(PythonQuote(s))
    ensures Plain(s) ==> Quote(s) == PythonQuote(s)
  {
    SerdeTextIsPlain(s);
    PythonTextIsPlain(s);
    PlainConcat(['"'] + EscapeText(s), ['"']);
    PlainConcat(['"'], EscapeText(s));
    PlainConcat(['"'] + PythonEscapeText(s), ['"']);
    PlainConcat(['"'], PythonEscapeText(s));
  }

  lemma MemberIsPlain(open: string, key: string, value: string, rest: string)
    requires Plain(open)
    ensures Plain(open + key + ":" + value + rest) <==> Plain(key) && Plain(value) && Plain(rest)
  {
    PlainConcat(open + key + ":" + value, rest);
    PlainConcat(open + key + ":", value);
    PlainConcat(open + key, ":");
    PlainConcat(open, key);
  }

  lemma DecimalIsPlain(n: nat)
    ensures Plain(Decimal(n))
  {}

  lemma {:induction false} EncodingsArePlain(v: Value)
    ensures Plain(Encode(v)) <==> PlainValue(v)
    ensures Plain(PythonEncode(v))
    ensures PlainValue(v) ==> Encode(v) == PythonEncode(v)
    decreases v
  {
    match v
    case Null =>
    case Bool(_) =>
    case Number(n) => DecimalIsPlain(n);
    case Text(s) => QuotesArePlain(s);
    case Object(NoFields) =>
    case Object(Entry(k, w, rest)) =>
      QuotesArePlain(k);
      EncodingsArePlain(w);
      RestsArePlain(rest);
      MemberIsPlain("{", Quote(k), Encode(w), EncodeRest(rest));
      MemberIsPlain("{", PythonQuote(k), PythonEncode(w), PythonEncodeRest(rest));
  }

  lemma {:induction false} RestsArePlain(f: Fields)
    ensures Plain(EncodeRest(f)) <==> PlainFields(f)
    ensures Plain(PythonEncodeRest(f))
    ensures PlainFields(f) ==> EncodeRest(f) == PythonEncodeRest(f)
    decreases f
  {
    match f
    case NoFields =>
    case Entry(k, w, rest) =>
      QuotesArePlain(k);
      EncodingsArePlain(w);
      RestsArePlain(rest);
      MemberIsPlain(",", Quote(k), Encode(w), EncodeRest(rest));
      MemberIsPlain(",", PythonQuote(k), PythonEncode(w), PythonEncodeRest(rest));
  }

  /** The two programs write a value alike exactly when no string in it has a character
      above U+007E. */
  lemma EncodersAgree(v: Value)
    ensures Encode(v) == PythonEncode(v) <==> PlainValue(v)
  {
    EncodingsArePlain(v);
  }

  // ---------------------------------------------------------------- reading Python's text

  /** The reader gives this item and leaves this rest, or rejects the text (it knows no surrogate pairs). */
  predicate ReadsAs<T(==)>(p: Option<Parsed<T>>, item: T, rest: string) {
    p == None || p == Some(Parsed(item, rest))
  }

  /** What the reader makes of four hexadecimal digits. */
  lemma ReadFourDigits(u: nat, t: string)
    requires u < 0x1_0000
    ensures ParseText(UnicodeEscape(u) + t)
            == if 0xD800 <= u < 0xE000 then None else Prepend(u as char, ParseText(t))
  {
    var s := UnicodeEscape(u) + t;
    assert s[0] == '\\' && s[1] == 'u' && s[6..] == t;
    DigitsOfWord(u);
    HexDigitHasItsValue(u / 16 / 16 / 16);
    HexDigitHasItsValue(u / 16 / 16 % 16);
    HexDigitHasItsValue(u / 16 % 16);
    HexDigitHasItsValue(u % 16);
  }

  lemma DigitsOfWord(u: nat)
    ensures u / 16 / 16 / 16 * 4096 + u / 16 / 16 % 16 * 256 + u / 16 % 16 * 16 + u % 16 == u
  {
    var a := u / 16;
    var b := a / 16;
    assert u == 16 * a + u % 16 && a == 16 * b + a % 16 && b == 16 * (b / 16) + b % 16;
  }

  /** A character beyond the first plane is written as a surrogate pair, whose first half the reader rejects. */
  lemma SurrogateIsRejected(high: nat, rest: string, t: string)
    requires high < 1024
    ensures ParseText(UnicodeEscape(0xD800 + high) + rest + t) == None
  {
    ReadFourDigits(0xD800 + high, rest + t);
    assert UnicodeEscape(0xD800 + high) + rest + t == UnicodeEscape(0xD800 + high) + (rest + t);
  }

  lemma ReadPythonChar(c: char, t: string)
    ensures ParseText(PythonEscapeChar(c) + t) == Prepend(c, ParseText(t)) || ParseText(PythonEscapeChar(c) + t) == None
  {
    var u := c as int;
    if ShortEscape(c).Some? {
      ParseShortEscape(c, t);
    } else if 0x20 <= u <= 0x7E {
      assert ([c] + t)[1..] == t;
    } else if u < 0x1_0000 {
      ReadFourDigits(u, t);
    } else {
      SurrogateIsRejected((u - 0x1_0000) / 1024 % 1024, UnicodeEscape(0xDC00 + (u - 0x1_0000) % 1024), t);
    }
  }

  lemma {:induction false} ReadPythonText(s: string, t: string)
    ensures ReadsAs(ParseText(PythonEscapeText(s) + ['"'] + t), s, t)
  {
    if |s| == 0 {
      assert (PythonEscapeText(s) + ['"'] + t)[1..] == t;
    } else {
      var tail := PythonEscapeText(s[1..]) + ['"'] + t;
      assert PythonEscapeText(s) + ['"'] + t == PythonEscapeChar(s[0]) + tail;
      ReadPythonChar(s[0], tail);
      ReadPythonText(s[1..], t);
      assert [s[0]] + s[1..] == s;
    }
  }

  lemma ReadPythonQuote(s: string, t: string)
    ensures (PythonQuote(s) + t)[0] == '"'
    ensures ReadsAs(ParseText((PythonQuote(s) + t)[1..]), s, t)
  {
    ReadPythonText(s, t);
    assert (PythonQuote(s) + t)[1..] == PythonEscapeText(s) + ['"'] + t;
  }

  lemma ReadMemberInSteps(s: string, k: string, s1: string, w: Value, s2: string, f: Fields, t: string)
    requires |s| > 0 && s[0] == '"' && ReadsAs(ParseText(s[1..]), k, s1)
    requires |s1| > 0 && s1[0] == ':' && ReadsAs(ParseValue(s1[1..]), w, s2)
    requires ReadsAs(ParseMoreMembers(s2), f, t)
    ensures ReadsAs(ParseMember(s), Entry(k, w, f), t)
  {}

  lemma {:induction false} ReadPythonMember(k: string, w: Value, f: Fields, t: string)
    ensures ReadsAs(ParseMember(PythonQuote(k) + ":" + PythonEncode(w) + PythonEncodeRest(f) + t), Entry(k, w, f), t)
    decreases Entry(k, w, f), 0
  {
    var q, e, r := PythonQuote(k), PythonEncode(w), PythonEncodeRest(f);
    var s1 := ":" + (e + (r + t));
    MemberText(q, e, r, t);
    ReadPythonQuote(k, s1);
    ReadPythonRest(f, t);
    ReadPythonValue(w, r + t);
    ReadMemberInSteps(q + s1, k, s1, w, r + t, f, t);
  }

  lemma {:induction false} ReadPythonRest(f: Fields, t: string)
    ensures !StartsWithDigit(PythonEncodeRest(f) + t)
    ensures ReadsAs(ParseMoreMembers(PythonEncodeRest(f) + t), f, t)
    decreases f, 1
  {
    match f
    case NoFields =>
      assert ("}" + t)[1..] == t;
    case Entry(k, w, g) =>
      RestText(PythonQuote(k), PythonEncode(w), PythonEncodeRest(g), t);
      ReadPythonMember(k, w, g, t);
  }

  lemma ReadBraced(body: string, f: Fields, t: string)
    requires |body| > 0 && body[0] == '"' && ReadsAs(ParseMember(body), f, t)
    ensures ReadsAs(ParseValue("{" + body), Object(f), t)
  {
    ParseBrace(body);
  }

  lemma PythonObjectText(k: string, w: Value, f: Fields, t: string)
    ensures PythonEncode(Object(Entry(k, w, f))) + t
            == "{" + (PythonQuote(k) + ":" + PythonEncode(w) + PythonEncodeRest(f) + t)
  {}

  /** The desktop's reader takes Python's text for the value it was made of, or rejects it; never for another. */
  lemma {:induction false} ReadPythonValue(v: Value, t: string)
    requires !StartsWithDigit(t)
    ensures ReadsAs(ParseValue(PythonEncode(v) + t), v, t)
    decreases v
  {
    match v
    case Null => ParseKeyword(v, t);
    case Bool(_) => ParseKeyword(v, t);
    case Number(n) => ParseNumber(n, t);
    case Text(x) =>
      ReadPythonQuote(x, t);
      assert (PythonQuote(x) + t)[0] == '"';
    case Object(NoFields) => ParseEmptyObject(t);
    case Object(Entry(k, w, f)) =>
      ReadPythonMember(k, w, f, t);
      PythonObjectText(k, w, f, t);
      ReadBraced(PythonQuote(k) + ":" + PythonEncode(w) + PythonEncodeRest(f) + t, Entry(k, w, f), t);
  }

  /** What serde_json writes for one value is what Python writes for another exactly when they are the same
      value and no string in it has a character above U+007E. */
  lemma TextsCoincide(v: Value, w: Value)
    ensures Encode(v) == PythonEncode(w) <==> v == w && PlainValue(w)
  {
    EncodersAgree(w);
    if Encode(v) == PythonEncode(w) {
      ParseEncoded(v, "");
      ReadPythonValue(w, "");
      assert Encode(v) + "" == PythonEncode(w) + "";
    }
  }

  // ---------------------------------------------------------------- at the level of requests

  predicate PlainSelector(s: Selector) {
    PlainOption(s.role) && PlainOption(s.accessibleName) && PlainOption(s.nodeRef)
  }

  /** What a caller can check before asking for a grant. */
  predicate PlainRequest(t: Target, p: Params) {
    && Plain(t.profileId) && Plain(t.surfaceId)
    && match p
       case Navigate(url, _) => Plain(url)
       case Screenshot(_) => true
       case Read => true
       case Extract(m) => forall k :: k in m ==> Plain(k) && PlainSelector(m[k])
       case Click(s) => PlainSelector(s)
       case Type(s, text) => PlainSelector(s) && Plain(text)
  }

  lemma {:induction false} PlainInsert(f: Fields, k: string, v: Value)
    requires Lookup(f, k) == None
    ensures PlainFields(Insert(f, k, v)) <==> PlainFields(f) && Plain(k) && PlainValue(v)
  {
    match f
    case NoFields =>
    case Entry(_, _, rest) => PlainInsert(rest, k, v);
  }

  lemma PlainObjectOfThree(k1: string, v1: Value, k2: string, v2: Value, k3: string, v3: Value)
    requires k1 != k2 && k1 != k3 && k2 != k3 && Plain(k1) && Plain(k2) && Plain(k3)
    ensures PlainFields(Insert(Insert(Single(k1, v1), k2, v2), k3, v3))
            <==> PlainValue(v1) && PlainValue(v2) && PlainValue(v3)
  {
    PlainInsert(Single(k1, v1), k2, v2);
    LookupInsert(Single(k1, v1), k2, v2, k3);
    PlainInsert(Insert(Single(k1, v1), k2, v2), k3, v3);
  }

  lemma PlainSelectorValue(s: Selector)
    ensures PlainValue(SelectorValue(s)) <==> PlainSelector(s)
  {
    PlainObjectOfThree("role", OptionalText(s.role), "accessible_name", OptionalText(s.accessibleName),
                       "node_ref", OptionalText(s.nodeRef));
  }

  lemma {:induction false} PlainSchemaObject(m: map<string, Selector>)
    ensures PlainFields(SchemaObject(m)) <==> forall k :: k in m ==> Plain(k) && PlainSelector(m[k])
    decreases |m|
  {
    if m != map[] {
      var k :| k in m && SchemaObject(m) == Insert(SchemaObject(m - {k}), k, SelectorValue(m[k]));
      SchemaObjectIsSortedMap(m - {k}, k);
      PlainInsert(SchemaObject(m - {k}), k, SelectorValue(m[k]));
      PlainSelectorValue(m[k]);
      PlainSchemaObject(m - {k});
      if PlainFields(SchemaObject(m)) {
        forall j | j in m ensures Plain(j) && PlainSelector(m[j]) {
          assert j != k ==> j in m - {k} && (m - {k})[j] == m[j];
        }
      }
    }
  }

  lemma PlainTargetValue(t: Target)
    ensures PlainValue(TargetValue(t)) <==> Plain(t.profileId) && Plain(t.surfaceId)
  {
    PlainObjectOfThree("browser_profile_id", Text(t.profileId), "surface_id", Text(t.surfaceId),
                       "navigation_generation", OptionalNumber(t.generation));
  }

  lemma PlainObjectOfOne(k: string, v: Value)
    requires Plain(k)
    ensures PlainFields(Single(k, v)) <==> PlainValue(v)
  {}

  lemma PlainObjectOfTwo(k1: string, v1: Value, k2: string, v2: Value)
    requires k1 != k2 && Plain(k1) && Plain(k2)
    ensures PlainFields(Insert(Single(k1, v1), k2, v2)) <==> PlainValue(v1) && PlainValue(v2)
  {
    PlainInsert(Single(k1, v1), k2, v2);
  }

  lemma KeysArePlain()
    ensures Plain("target") && Plain("url") && Plain("timeout_ms") && Plain("full_page")
    ensures Plain("schema_fields") && Plain("selector") && Plain("ui_input_text")
  {}

  lemma PlainNavigate(target: Value, url: string, ms: nat)
    ensures PlainFields(Insert(Insert(Single("target", target), "url", Text(url)), "timeout_ms", Number(ms)))
            <==> PlainValue(target) && Plain(url)
  {
    KeysArePlain();
    PlainObjectOfThree("target", target, "url", Text(url), "timeout_ms", Number(ms));
  }

  lemma PlainType(target: Value, s: Selector, text: string)
    ensures PlainFields(
              Insert(Insert(Single("target", target), "selector", SelectorValue(s)), "ui_input_text", Text(text)))
            <==> PlainValue(target) && PlainSelector(s) && Plain(text)
  {
    KeysArePlain();
    PlainSelectorValue(s);
    PlainObjectOfThree("target", target, "selector", SelectorValue(s), "ui_input_text", Text(text));
  }

  lemma PlainTargetAnd(target: Value, key: string, v: Value)
    requires key != "target" && Plain(key)
    ensures PlainFields(Insert(Single("target", target), key, v)) <==> PlainValue(target) && PlainValue(v)
  {
    KeysArePlain();
    PlainObjectOfTwo("target", target, key, v);
  }

  lemma PlainExtract(target: Value, m: map<string, Selector>)
    ensures PlainFields(Insert(Single("target", target), "schema_fields", Object(SchemaObject(m))))
            <==> PlainValue(target) && forall k :: k in m ==> Plain(k) && PlainSelector(m[k])
  {
    KeysArePlain();
    PlainTargetAnd(target, "schema_fields", Object(SchemaObject(m)));
    PlainSchemaObject(m);
  }

  lemma PlainClick(target: Value, s: Selector)
    ensures PlainFields(Insert(Single("target", target), "selector", SelectorValue(s)))
            <==> PlainValue(target) && PlainSelector(s)
  {
    KeysArePlain();
    PlainTargetAnd(target, "selector", SelectorValue(s));
    PlainSelectorValue(s);
  }

  lemma PlainScreenshot(target: Value, full: bool)
    ensures PlainFields(Insert(Single("target", target), "full_page", Bool(full))) <==> PlainValue(target)
  {
    KeysArePlain();
    PlainTargetAnd(target, "full_page", Bool(full));
  }

  lemma PlainRead(target: Value)
    ensures PlainFields(Single("target", target)) <==> PlainValue(target)
  {
    KeysArePlain();
    PlainObjectOfOne("target", target);
  }

  lemma PlainParametersValue(t: Target, p: Params)
    ensures PlainValue(ParametersValue(t, p)) <==> PlainRequest(t, p)
  {
    var target := TargetValue(t);
    PlainTargetValue(t);
    match p
    case Navigate(url, ms) => PlainNavigate(target, url, ms);
    case Screenshot(full) => PlainScreenshot(target, full);
    case Read => PlainRead(target);
    case Extract(m) => PlainExtract(target, m);
    case Click(s) => PlainClick(target, s);
    case Type(s, text) => PlainType(target, s, text);
  }

  lemma CapabilityIsPlain(p: Params)
    ensures Plain(CapabilityOf(p))
  {}

  lemma PlainEnvelope(capability: string, parameters: Value)
    requires Plain(capability)
    ensures PlainValue(Object(Insert(Single("capability", Text(capability)), "parameters", parameters)))
            <==> PlainValue(parameters)
  {
    PlainObjectOfTwo("capability", Text(capability), "parameters", parameters);
  }

  lemma PlainRequestValue(t: Target, p: Params)
    ensures PlainValue(RequestValue(t, p)) <==> PlainRequest(t, p)
  {
    CapabilityIsPlain(p);
    PlainEnvelope(CapabilityOf(p), ParametersValue(t, p));
    PlainParametersValue(t, p);
  }

  ghost function BackendText(t: Target, p: Params): string {
    PythonEncode(RequestValue(t, p))
  }

  /** The hash the desktop computes for one request is the one the backend minted for another exactly when they
      are the same request and it holds no character above U+007E: no other request can take a minted one's place. */
  lemma DesktopHashIsMintedHash(digest: string -> string, t: Target, p: Params, u: Target, q: Params)
    requires CollisionFree(digest)
    ensures digest(RequestText(t, p)) == digest(BackendText(u, q)) <==> t == u && p == q && PlainRequest(u, q)
  {
    var v, w := RequestValue(t, p), RequestValue(u, q);
    TextsCoincide(v, w);
    PlainRequestValue(u, q);
    assert digest(Encode(v)) == digest(PythonEncode(w)) <==> Encode(v) == PythonEncode(w);
    if v == w {
      RequestValueIsInjective(t, p, u, q);
    }
  }

  /** With any collision-free digest, the hash the desktop recomputes for the very request the
      backend minted is the minted hash exactly when the request holds no character above U+007E. */
  lemma DesktopAndBackendHashesAgree(digest: string -> string, t: Target, p: Params)
    requires CollisionFree(digest)
    ensures digest(RequestText(t, p)) == digest(BackendText(t, p)) <==> PlainRequest(t, p)
  {
    DesktopHashIsMintedHash(digest, t, p, t, p);
  }

  /** A letter outside ASCII. */
  const E_ACUTE: string := "\U{00E9}"

  lemma EAcuteIsNotPlain()
    ensures !Plain(E_ACUTE)
  {
    assert E_ACUTE[0] as int == 0xE9;
  }

  /** The input that shows the two encodings are not the same function: one letter outside ASCII in the text to type. */
  lemma AnAccentedLetterBreaksTheHash(digest: string -> string, t: Target, s: Selector)
    requires CollisionFree(digest)
    ensures digest(RequestText(t, Type(s, E_ACUTE))) != digest(BackendText(t, Type(s, E_ACUTE)))
  {
    EAcuteIsNotPlain();
    DesktopAndBackendHashesAgree(digest, t, Type(s, E_ACUTE));
  }
}
