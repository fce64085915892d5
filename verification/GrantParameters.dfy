/** Grants, the parameters a redeem call supplies beside them, and the canonical text whose
    SHA-256 a grant carries: `canonicalize_and_hash` and the `*_parameters_value` builders. */
module GrantParameters {
  import opened Wrappers
  import opened Json

  const NAVIGATE_CAPABILITY := "kortex.browser.navigate"
  const SCREENSHOT_CAPABILITY := "kortex.browser.screenshot"
  const READ_CAPABILITY := "kortex.browser.read"
  const EXTRACT_CAPABILITY := "kortex.browser.extract"
  const CLICK_CAPABILITY := "kortex.browser.click"
  const TYPE_CAPABILITY := "kortex.browser.type"

  datatype Grant = Grant(
    grantId: string,
    tenantId: string,
    principalId: string,
    capability: string,
    profileId: string,
    surfaceId: string,
    generation: Option<nat>,
    parametersHash: string,
    issuedAt: string,
    expiresAt: string)

  datatype Selector = Selector(role: Option<string>, accessibleName: Option<string>, nodeRef: Option<string>)

  /** `BrowserCapabilityParamsWire`. */
  datatype Params =
    | Navigate(url: string, timeoutMs: nat)
    | Screenshot(fullPage: bool)
    | Read
    | Extract(schemaFields: map<string, Selector>)
    | Click(selector: Selector)
    | Type(selector: Selector, text: string)

  datatype Target = Target(profileId: string, surfaceId: string, generation: Option<nat>)

  /** Every `*_parameters_value` builder takes its target from the grant itself. */
  function TargetOf(g: Grant): Target {
    Target(g.profileId, g.surfaceId, g.generation)
  }

  /** The serde tag of the wire variant. */
  function CapabilityOf(p: Params): string {
    match p
    case Navigate(_, _) => NAVIGATE_CAPABILITY
    case Screenshot(_) => SCREENSHOT_CAPABILITY
    case Read => READ_CAPABILITY
    case Extract(_) => EXTRACT_CAPABILITY
    case Click(_) => CLICK_CAPABILITY
    case Type(_, _) => TYPE_CAPABILITY
  }

  // ---------------------------------------------------------------- the values that are hashed

  function OptionalText(o: Option<string>): Value {
    match o
    case None => Null
    case Some(s) => Text(s)
  }

  function OptionalNumber(o: Option<nat>): Value {
    match o
    case None => Null
    case Some(n) => Number(n)
  }

  function Single(key: string, v: Value): Fields {
    Insert(NoFields, key, v)
  }

  function TargetValue(t: Target): Value {
    Object(Insert(Insert(Single(
      "browser_profile_id", Text(t.profileId)),
      "surface_id", Text(t.surfaceId)),
      "navigation_generation", OptionalNumber(t.generation)))
  }

  function SelectorValue(s: Selector): Value {
    Object(Insert(Insert(Single(
      "role", OptionalText(s.role)),
      "accessible_name", OptionalText(s.accessibleName)),
      "node_ref", OptionalText(s.nodeRef)))
  }

  /** The object `schema_fields` becomes, whatever order its `HashMap` is iterated in. */
  ghost function SchemaObject(m: map<string, Selector>): Fields
    decreases |m|
  {
    if m == map[] then NoFields
    else
      var k :| k in m;
      Insert(SchemaObject(m - {k}), k, SelectorValue(m[k]))
  }

  ghost function ParametersValue(t: Target, p: Params): Value {
    var base := Single("target", TargetValue(t));
    match p
    case Navigate(url, ms) => Object(Insert(Insert(base, "url", Text(url)), "timeout_ms", Number(ms)))
    case Screenshot(full) => Object(Insert(base, "full_page", Bool(full)))
    case Read => Object(base)
    case Extract(m) => Object(Insert(base, "schema_fields", Object(SchemaObject(m))))
    case Click(s) => Object(Insert(base, "selector", SelectorValue(s)))
    case Type(s, text) => Object(Insert(Insert(base, "selector", SelectorValue(s)), "ui_input_text", Text(text)))
  }

  ghost function RequestValue(t: Target, p: Params): Value {
    Object(Insert(Single("capability", Text(CapabilityOf(p))), "parameters", ParametersValue(t, p)))
  }

  /** The text `canonicalize_and_hash` feeds to SHA-256. */
  ghost function RequestText(t: Target, p: Params): string {
    Encode(RequestValue(t, p))
  }

  // ---------------------------------------------------------------- iteration order

  lemma {:induction false} SchemaObjectIsSortedMap(m: map<string, Selector>, key: string)
    ensures Sorted(SchemaObject(m))
    ensures Lookup(SchemaObject(m), key) == if key in m then Some(SelectorValue(m[key])) else None
    decreases |m|
  {
    if m != map[] {
      var k :| k in m && SchemaObject(m) == Insert(SchemaObject(m - {k}), k, SelectorValue(m[k]));
      SchemaObjectIsSortedMap(m - {k}, key);
      InsertKeepsSorted(SchemaObject(m - {k}), k, SelectorValue(m[k]));
      LookupInsert(SchemaObject(m - {k}), k, SelectorValue(m[k]), key);
    }
  }

  /** A sorted object that maps every key as `m` does is `SchemaObject(m)`. */
  lemma SchemaObjectIsUnique(m: map<string, Selector>, f: Fields)
    requires Sorted(f)
    requires forall key :: Lookup(f, key) == if key in m then Some(SelectorValue(m[key])) else None
    ensures f == SchemaObject(m)
  {
    forall key ensures Lookup(f, key) == Lookup(SchemaObject(m), key) {
      SchemaObjectIsSortedMap(m, key);
    }
    SchemaObjectIsSortedMap(m, "");
    SortedIsCanonical(f, SchemaObject(m));
  }

  /** The `collect` in `extract_parameters_value`: the entries arrive in any order the
      `HashMap` iterator likes, and the result does not depend on it. */
  method CollectSchemaFields(schemaFields: map<string, Selector>) returns (fields: Fields)
    ensures fields == SchemaObject(schemaFields)
  {
    fields := NoFields;
    var rest := schemaFields;
    while rest.Keys != {}
      invariant rest.Keys <= schemaFields.Keys
      invariant forall key :: key in rest ==> rest[key] == schemaFields[key]
      invariant Sorted(fields)
      invariant forall key :: Lookup(fields, key) ==
                              if key in schemaFields && key !in rest then Some(SelectorValue(schemaFields[key]))
                              else None
      decreases rest.Keys
    {
      var k :| k in rest.Keys;
      var before := fields;
      fields := Insert(fields, k, SelectorValue(rest[k]));
      InsertKeepsSorted(before, k, SelectorValue(rest[k]));
      forall key
        ensures Lookup(fields, key) == if key == k then Some(SelectorValue(schemaFields[k])) else Lookup(before, key)
      {
        LookupInsert(before, k, SelectorValue(rest[k]), key);
      }
      rest := rest - {k};
    }
    SchemaObjectIsUnique(schemaFields, fields);
  }

  // ---------------------------------------------------------------- injectivity

  lemma SelectorValueIsInjective(s: Selector, t: Selector)
    requires SelectorValue(s) == SelectorValue(t)
    ensures s == t
  {
    SelectorLookups(s);
    SelectorLookups(t);
  }

  lemma SelectorLookups(s: Selector)
    ensures SelectorValue(s).Object?
    ensures Lookup(SelectorValue(s).fields, "role") == Some(OptionalText(s.role))
    ensures Lookup(SelectorValue(s).fields, "accessible_name") == Some(OptionalText(s.accessibleName))
    ensures Lookup(SelectorValue(s).fields, "node_ref") == Some(OptionalText(s.nodeRef))
  {
    var f1 := Single("role", OptionalText(s.role));
    var f2 := Insert(f1, "accessible_name", OptionalText(s.accessibleName));
    LookupInsert(f1, "accessible_name", OptionalText(s.accessibleName), "role");
    LookupInsert(f1, "accessible_name", OptionalText(s.accessibleName), "accessible_name");
    LookupInsert(f2, "node_ref", OptionalText(s.nodeRef), "role");
    LookupInsert(f2, "node_ref", OptionalText(s.nodeRef), "accessible_name");
    LookupInsert(f2, "node_ref", OptionalText(s.nodeRef), "node_ref");
  }

  lemma TargetLookups(t: Target)
    ensures Lookup(TargetValue(t).fields, "browser_profile_id") == Some(Text(t.profileId))
    ensures Lookup(TargetValue(t).fields, "surface_id") == Some(Text(t.surfaceId))
    ensures Lookup(TargetValue(t).fields, "navigation_generation") == Some(OptionalNumber(t.generation))
  {
    var f1 := Single("browser_profile_id", Text(t.profileId));
    var f2 := Insert(f1, "surface_id", Text(t.surfaceId));
    LookupInsert(f1, "surface_id", Text(t.surfaceId), "browser_profile_id");
    LookupInsert(f1, "surface_id", Text(t.surfaceId), "surface_id");
    LookupInsert(f2, "navigation_generation", OptionalNumber(t.generation), "browser_profile_id");
    LookupInsert(f2, "navigation_generation", OptionalNumber(t.generation), "surface_id");
    LookupInsert(f2, "navigation_generation", OptionalNumber(t.generation), "navigation_generation");
  }

  lemma SchemaObjectIsInjective(m: map<string, Selector>, n: map<string, Selector>)
    requires SchemaObject(m) == SchemaObject(n)
    ensures m == n
  {
    forall key ensures (key in m <==> key in n) && (key in m ==> m[key] == n[key]) {
      SchemaObjectIsSortedMap(m, key);
      SchemaObjectIsSortedMap(n, key);
      if key in m { SelectorValueIsInjective(m[key], n[key]); }
    }
  }

  /** The members of `ParametersValue`, one per builder. */
  lemma ParametersLookups(t: Target, p: Params)
    ensures ParametersValue(t, p).Object?
    ensures var f := ParametersValue(t, p).fields;
            && Lookup(f, "target") == Some(TargetValue(t))
            && match p
               case Navigate(url, ms) =>
                 Lookup(f, "url") == Some(Text(url)) && Lookup(f, "timeout_ms") == Some(Number(ms))
               case Screenshot(full) => Lookup(f, "full_page") == Some(Bool(full))
               case Read => true
               case Extract(m) => Lookup(f, "schema_fields") == Some(Object(SchemaObject(m)))
               case Click(s) => Lookup(f, "selector") == Some(SelectorValue(s))
               case Type(s, text) =>
                 Lookup(f, "selector") == Some(SelectorValue(s)) && Lookup(f, "ui_input_text") == Some(Text(text))
  {
    var base := Single("target", TargetValue(t));
    match p
    case Navigate(url, ms) =>
      var f := Insert(base, "url", Text(url));
      LookupInsert(base, "url", Text(url), "target");
      LookupInsert(base, "url", Text(url), "url");
      LookupInsert(f, "timeout_ms", Number(ms), "target");
      LookupInsert(f, "timeout_ms", Number(ms), "url");
      LookupInsert(f, "timeout_ms", Number(ms), "timeout_ms");
    case Screenshot(full) =>
      LookupInsert(base, "full_page", Bool(full), "target");
      LookupInsert(base, "full_page", Bool(full), "full_page");
    case Read =>
    case Extract(m) =>
      LookupInsert(base, "schema_fields", Object(SchemaObject(m)), "target");
      LookupInsert(base, "schema_fields", Object(SchemaObject(m)), "schema_fields");
    case Click(s) =>
      LookupInsert(base, "selector", SelectorValue(s), "target");
      LookupInsert(base, "selector", SelectorValue(s), "selector");
    case Type(s, text) =>
      var f := Insert(base, "selector", SelectorValue(s));
      LookupInsert(base, "selector", SelectorValue(s), "target");
      LookupInsert(base, "selector", SelectorValue(s), "selector");
      LookupInsert(f, "ui_input_text", Text(text), "target");
      LookupInsert(f, "ui_input_text", Text(text), "selector");
      LookupInsert(f, "ui_input_text", Text(text), "ui_input_text");
  }

  predicate SameVariant(p: Params, q: Params) {
    && p.Navigate? == q.Navigate? && p.Screenshot? == q.Screenshot? && p.Read? == q.Read?
    && p.Extract? == q.Extract? && p.Click? == q.Click? && p.Type? == q.Type?
  }

  lemma CapabilityTellsVariant(p: Params, q: Params)
    requires CapabilityOf(p) == CapabilityOf(q)
    ensures SameVariant(p, q)
  {}

  lemma TargetValueIsInjective(t: Target, u: Target)
    requires TargetValue(t) == TargetValue(u)
    ensures t == u
  {
    TargetLookups(t);
    TargetLookups(u);
  }

  lemma ParametersValueIsInjective(t: Target, p: Params, u: Target, q: Params)
    requires SameVariant(p, q) && ParametersValue(t, p) == ParametersValue(u, q)
    ensures t == u && p == q
  {
    ParametersLookups(t, p);
    ParametersLookups(u, q);
    var f := ParametersValue(t, p).fields;
    assert TargetValue(t) == TargetValue(u) by { assert Lookup(f, "target") == Some(TargetValue(t)); }
    TargetValueIsInjective(t, u);
    match p
    case Navigate(_, _) =>
    case Screenshot(_) =>
    case Read =>
    case Extract(m) => SchemaObjectIsInjective(m, q.schemaFields);
    case Click(s) => SelectorValueIsInjective(s, q.selector);
    case Type(s, _) => SelectorValueIsInjective(s, q.selector);
  }

  lemma RequestValueIsInjective(t: Target, p: Params, u: Target, q: Params)
    requires RequestValue(t, p) == RequestValue(u, q)
    ensures t == u && p == q
  {
    var f := RequestValue(t, p).fields;
    assert CapabilityOf(p) == CapabilityOf(q) && ParametersValue(t, p) == ParametersValue(u, q) by {
      RequestLookups(t, p);
      RequestLookups(u, q);
      assert Lookup(f, "capability") == Some(Text(CapabilityOf(q)));
      assert Lookup(f, "parameters") == Some(ParametersValue(u, q));
    }
    CapabilityTellsVariant(p, q);
    ParametersValueIsInjective(t, p, u, q);
  }

  /** Two requests have the same canonical text exactly when they are the same request: same
      capability, same target, same parameters. */
  lemma RequestTextIsInjective(t: Target, p: Params, u: Target, q: Params)
    ensures RequestText(t, p) == RequestText(u, q) <==> t == u && p == q
  {
    if RequestText(t, p) == RequestText(u, q) {
      EncodeIsInjective(RequestValue(t, p), RequestValue(u, q));
      RequestValueIsInjective(t, p, u, q);
    }
  }

  lemma RequestLookups(t: Target, p: Params)
    ensures Lookup(RequestValue(t, p).fields, "capability") == Some(Text(CapabilityOf(p)))
    ensures Lookup(RequestValue(t, p).fields, "parameters") == Some(ParametersValue(t, p))
  {
    var base := Single("capability", Text(CapabilityOf(p)));
    LookupInsert(base, "parameters", ParametersValue(t, p), "capability");
    LookupInsert(base, "parameters", ParametersValue(t, p), "parameters");
  }

  /** The assumption made of SHA-256. */
  ghost predicate CollisionFree(digest: string -> string) {
    forall a, b :: digest(a) == digest(b) ==> a == b
  }

  /** With a collision-free digest, the hash in a grant names one request. */
  lemma HashNamesOneRequest(digest: string -> string, t: Target, p: Params, u: Target, q: Params)
    requires CollisionFree(digest)
    ensures digest(RequestText(t, p)) == digest(RequestText(u, q)) <==> t == u && p == q
  {
    RequestTextIsInjective(t, p, u, q);
  }

  /** The text can be read back: the parser returns the request object and nothing is left over. */
  lemma RequestTextParses(t: Target, p: Params)
    ensures ParseValue(RequestText(t, p)) == Some(Parsed(RequestValue(t, p), ""))
    ensures Lookup(RequestValue(t, p).fields, "capability") == Some(Text(CapabilityOf(p)))
    ensures Lookup(RequestValue(t, p).fields, "parameters") == Some(ParametersValue(t, p))
  {
    ParseEncoded(RequestValue(t, p), "");
    assert RequestText(t, p) + "" == RequestText(t, p);
    RequestLookups(t, p);
  }
}
