/** What the answers of the redeem protocol mean, in terms of the grant, the parameters, the clock and what a call
    finds: the functions of `RedeemProtocol` that decide them are used in none of these definitions. */
module RedeemSpec {
  import opened Wrappers
  import opened GrantParameters
  import opened ProfileKeys
  import opened RedeemProtocol
  import GrantPayload

  // ---------------------------------------------------------------- the grant

  /** The signature covers the grant's payload. */
  predicate Signed(cfg: Config, call: Call) {
    cfg.verifies(GrantPayload.CanonicalPayload(call.grant), call.signature)
  }

  predicate HasTimes(cfg: Config, g: Grant) {
    cfg.instant(g.issuedAt).Some? && cfg.instant(g.expiresAt).Some?
  }

  /** Issued, and not yet expired. */
  predicate Current(cfg: Config, g: Grant, now: int) {
    HasTimes(cfg, g) && cfg.instant(g.issuedAt).value <= now < cfg.instant(g.expiresAt).value
  }

  function KeyOf(g: Grant): ProfileKey {
    ProfileKey(g.tenantId, g.profileId)
  }

  // ---------------------------------------------------------------- the parameters

  /** The capability that takes these parameters. */
  function CapabilityFor(p: Params): string {
    match p
    case Navigate(_, _) => "kortex.browser.navigate"
    case Screenshot(_) => "kortex.browser.screenshot"
    case Read => "kortex.browser.read"
    case Extract(_) => "kortex.browser.extract"
    case Click(_) => "kortex.browser.click"
    case Type(_, _) => "kortex.browser.type"
  }

  /** One of the six capabilities there are parameters for. */
  ghost predicate IsCapability(name: string) {
    exists p :: name == CapabilityFor(p)
  }

  /** The grant carries the hash of these parameters for its own profile, surface and generation. */
  ghost predicate Carries(cfg: Config, g: Grant, p: Params) {
    cfg.digest(RequestText(Target(g.profileId, g.surfaceId, g.generation), p)) == g.parametersHash
  }

  predicate FullPage(p: Params) {
    p.Screenshot? && p.fullPage
  }

  predicate NamesElement(s: Selector) {
    s.role.Some? || s.accessibleName.Some?
  }

  /** Every selector names its element by role or accessible name. */
  predicate NamesElements(p: Params) {
    match p
    case Extract(fields) => forall k :: k in fields ==> NamesElement(fields[k])
    case Click(selector) => NamesElement(selector)
    case Type(selector, _) => NamesElement(selector)
    case _ => true
  }

  /** The same role and the same accessible name. */
  predicate SameElement(u: UiaSelector, s: Selector) {
    u.role == s.role && u.accessibleName == s.accessibleName
  }

  /** The effect is the one these parameters ask for on this surface. */
  ghost predicate Asks(p: Params, surface: string, e: Effect) {
    && e.surface == surface
    && (e.NavigateTo? <==> p.Navigate?)
    && (e.Capture? <==> p.Screenshot?)
    && (e.NavigateTo? ==> e.url == p.url)
    && (e.Submit? ==>
          && (e.operation.UiaRead? <==> p.Read?)
          && (e.operation.UiaExtract? <==> p.Extract?)
          && (e.operation.UiaClick? <==> p.Click?)
          && (e.operation.UiaType? <==> p.Type?)
          && (p.Extract? ==>
                && e.operation.fields.Keys == p.schemaFields.Keys
                && forall k :: k in p.schemaFields ==> SameElement(e.operation.fields[k], p.schemaFields[k]))
          && (p.Click? ==> SameElement(e.operation.selector, p.selector))
          && (p.Type? ==> SameElement(e.operation.selector, p.selector) && e.operation.text == p.text))
  }

  /** The kind of result these parameters ask for. */
  predicate KindFor(k: Kind, p: Params) {
    && (k.NavigateKind? <==> p.Navigate?) && (k.ScreenshotKind? <==> p.Screenshot?) && (k.ReadKind? <==> p.Read?)
    && (k.ExtractKind? <==> p.Extract?) && (k.ClickKind? <==> p.Click?) && (k.TypeKind? <==> p.Type?)
  }

  /** There is only one such effect. */
  lemma AskedOnce(p: Params, surface: string, d: Effect, e: Effect)
    requires Asks(p, surface, d) && Asks(p, surface, e)
    ensures d == e
  {
    if p.Extract? {
      assert forall k :: k in p.schemaFields ==> d.operation.fields[k] == e.operation.fields[k];
      assert d.operation.fields == e.operation.fields;
    }
  }

  // ---------------------------------------------------------------- why a call returns what it returns

  /** The capability's own parameters came with the call. */
  predicate HasParameters(call: Call) {
    call.params.Some? && call.grant.capability == CapabilityFor(call.params.value)
  }

  predicate Bound(w: World, g: Grant) {
    g.surfaceId in w.bindings && w.bindings[g.surfaceId] == KeyOf(g)
  }

  predicate Sent(w: World, call: Call, o: NavigationOutcome) {
    call.waiter < |w.waiters| && w.waiters[call.waiter].outcome == Some(o)
  }

  predicate Waits(p: Phase) {
    p.Issued? || p.Capturing? || p.Submitted?
  }

  /** The operation the call waits for has succeeded, with this kind of result. */
  predicate Succeeds(w: World, call: Call, input: Input, k: Kind) {
    || (call.phase.Issued? && input.wait.Resolved? && Sent(w, call, Arrived) && k == NavigateKind)
    || (call.phase.Capturing? && input.wait.CaptureDone? && k == ScreenshotKind)
    || (call.phase.Submitted? && input.wait == UiaDone(k) && call.params.Some? && KindFor(k, call.params.value))
  }

  /** What ends a call in an internal error: the surface or the platform fails it before or at its effect, its channel
      is closed, or a UI operation answers with another kind of result. */
  predicate FailsInternally(w: World, call: Call, input: Input) {
    var present := call.grant.surfaceId in w.live;
    match call.phase
    case Announced(plan) => !present || (!plan.NavigateTo? && !input.platformOk)
    case Armed(_) => !present || !input.platformOk
    case Rooted(_) => !input.platformOk
    case Issued(_) => input.wait.ChannelClosed?
    case Capturing(_) => input.wait.ChannelClosed?
    case Submitted(_) =>
      || input.wait.ChannelClosed?
      || (input.wait.UiaDone? && !(call.params.Some? && KindFor(input.wait.kind, call.params.value)))
    case _ => false
  }

  /** The grant is invalid: its signature, its timestamps, its id already used, or its parameters not those hashed. */
  ghost predicate IsInvalid(cfg: Config, w: World, call: Call) {
    || (call.phase.Fresh? && !Signed(cfg, call))
    || (call.phase.SignatureOk? && !HasTimes(cfg, call.grant))
    || (call.phase.TimeOk? && call.grant.grantId in w.markedBy)
    || (call.phase.Admitted? && HasParameters(call) && !FullPage(call.params.value)
        && !Carries(cfg, call.grant, call.params.value))
  }

  ghost predicate RefusedBecause(cfg: Config, w: World, call: Call, input: Input, e: ExecutionError) {
    var g, p := call.grant, call.phase;
    var present := g.surfaceId in w.live;
    match e
    case GrantInvalid => IsInvalid(cfg, w, call)
    case GrantExpired => p.SignatureOk? && HasTimes(cfg, g) && !Current(cfg, g, input.now)
    case SurfaceNotFound => (p.Inside? || (p.ActiveOk? && g.generation.Some?)) && !present
    case ProfileNotFound => (p.SurfaceOk? && !Bound(w, g)) || (p.BindingOk? && w.active != Some(KeyOf(g)))
    case StaleReference =>
      && p.ActiveOk? && present && g.generation.Some?
      && !(g.surfaceId in w.navigation && w.navigation[g.surfaceId].generation == g.generation.value)
    case ParametersRequired => p.Admitted? && IsCapability(g.capability) && !HasParameters(call)
    case FullPageNotYetSupported => p.Admitted? && HasParameters(call) && FullPage(call.params.value)
    case NodeRefOnlyNotSupported =>
      && p.Admitted? && HasParameters(call) && !FullPage(call.params.value) && Carries(cfg, g, call.params.value)
      && !NamesElements(call.params.value)
    case InternalError => FailsInternally(w, call, input)
    case DeniedByPolicy(reason) => p.Issued? && input.wait.Resolved? && Sent(w, call, PolicyDenied(reason))
    case NavigationFailed(status) => p.Issued? && input.wait.Resolved? && Sent(w, call, LoadFailed(status))
    case ScreenshotFailed => p.Capturing? && input.wait.CaptureError?
    case Timeout => Waits(p) && input.wait.Elapsed?
    case UiaFailed => input.wait.UiaError? && (p.Submitted? || (p.Rooted? && input.platformOk))
  }

  /** The reasons for a reply, of which one holds at the step in which the call returns it. */
  ghost predicate Because(cfg: Config, w: World, call: Call, input: Input, r: Reply) {
    match r
    case NotYetEnabled => call.phase.Admitted? && !IsCapability(call.grant.capability)
    case Executed(k) => Succeeds(w, call, input, k)
    case Refused(e) => RefusedBecause(cfg, w, call, input, e)
  }

  // ---------------------------------------------------------------- what a step writes

  /** What a call that stands at `p` and moves to `q` adds to the log. */
  predicate Writes(p: Phase, q: Phase, acts: seq<Act>) {
    if q.Finished? then
      match p
      case Admitted => acts == if q.reply == Refused(GrantInvalid) then [Audited(Rejected)] else []
      case ActiveOk => acts == if q.reply == Refused(SurfaceNotFound) then [] else [Audited(Rejected)]
      case Announced(plan) => acts == if plan.Capture? then [Performed(plan)] else []
      case Armed(plan) => acts == [Performed(plan), Audited(Failed)]
      case Rooted(plan) => acts == [Performed(plan), Audited(Failed)]
      case _ => acts == [Audited(if !Waits(p) then Rejected else if q.reply.Executed? then Succeeded else Failed)]
    else
      match p
      case GenerationOk => acts == [Audited(Redeemed)]
      case Vetted(_) => acts == [Audited(Started)]
      case Announced(plan) => acts == if plan.Capture? then [Performed(plan)] else []
      case Armed(plan) => acts == [Performed(plan)]
      case Rooted(plan) => acts == [Performed(plan)]
      case _ => acts == []
  }

  // ---------------------------------------------------------------- what the protocol plans

  lemma UsableNamesElements(p: Params)
    ensures SelectorsUsable(p) <==> NamesElements(p)
  {}

  /** The effect a call plans is the one its parameters ask for, and its result is of their kind. */
  lemma EffectIsAsked(p: Params, surface: string)
    requires SelectorsUsable(p)
    ensures Asks(p, surface, EffectOf(surface, p)) && KindFor(KindOf(EffectOf(surface, p)), p)
  {}

  lemma CapabilityIsKnown(name: string)
    ensures IsCapability(name) <==> name in EXECUTABLE
  {
    if name in EXECUTABLE {
      var p := SomeParameters(name);
      assert name == CapabilityFor(p);
    }
  }

  lemma SomeParameters(name: string) returns (p: Params)
    requires name in EXECUTABLE
    ensures name == CapabilityFor(p)
  {
    p := if name == NAVIGATE_CAPABILITY then Navigate("", 0)
      else if name == SCREENSHOT_CAPABILITY then Screenshot(false)
      else if name == READ_CAPABILITY then Read
      else if name == EXTRACT_CAPABILITY then Extract(map[])
      else if name == CLICK_CAPABILITY then Click(Selector(None, None, None))
      else Type(Selector(None, None, None), "");
  }

  lemma CapabilitiesAgree(p: Params)
    ensures CapabilityOf(p) == CapabilityFor(p)
  {}
}
