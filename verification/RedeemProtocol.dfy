/** The redeem protocol as a state machine: any number of concurrent `execute_granted_action` calls
    interleaved with each other, with navigation events, with surfaces and profiles coming and going,
    and with a backend that may issue any grant any number of times.

    A step of a call is computed from what the call sees (`Local`) and then applied to the shared
    state (`Apply`); everything else that can happen is in `Environment`. */
module RedeemProtocol {
  import opened Wrappers
  import opened GrantParameters
  import opened ProfileKeys
  import GrantPayload
  import NavigationPolicy

  type CallId = nat
  type LockId = nat
  type WaiterId = nat

  /** The 2^64 of an `AtomicU64`. */
  const GENERATIONS: nat := 0x1_0000_0000_0000_0000

  /** What the program takes from elsewhere: Ed25519 verification of a payload against a signature, SHA-256
      in hex, and the RFC 3339 parser. */
  datatype Config = Config(
    verifies: (string, string) -> bool,
    digest: string -> string,
    instant: string -> Option<int>)

  // ---------------------------------------------------------------- effects and audit

  datatype UiaSelector = UiaSelector(role: Option<string>, accessibleName: Option<string>)

  datatype UiaOperation =
    | UiaRead
    | UiaExtract(fields: map<string, UiaSelector>)
    | UiaClick(selector: UiaSelector)
    | UiaType(selector: UiaSelector, text: string)

  /** The three calls that reach outside: `runtime.navigate`, `runtime.capture_screenshot`, `pool.submit`. */
  datatype Effect =
    | NavigateTo(surface: string, url: string)
    | Capture(surface: string)
    | Submit(surface: string, operation: UiaOperation)

  datatype AuditEvent = Redeemed | Rejected | Started | Succeeded | Failed

  datatype Act = Audited(event: AuditEvent) | Performed(effect: Effect)

  /** One line of the shared log: an audit entry or an effect, and the call it belongs to. */
  datatype Item = Item(call: CallId, act: Act)

  // ---------------------------------------------------------------- replies

  datatype NavigationOutcome = Arrived | PolicyDenied(reason: NavigationPolicy.DenyReason) | LoadFailed(status: int)

  datatype Kind = NavigateKind | ScreenshotKind | ReadKind | ExtractKind | ClickKind | TypeKind

  datatype Reply = Executed(kind: Kind) | NotYetEnabled | Refused(error: ExecutionError)

  datatype ExecutionError =
    | GrantInvalid
    | GrantExpired
    | SurfaceNotFound
    | ProfileNotFound
    | StaleReference
    | InternalError
    | ParametersRequired
    | FullPageNotYetSupported
    | DeniedByPolicy(reason: NavigationPolicy.DenyReason)
    | NavigationFailed(status: int)
    | ScreenshotFailed
    | Timeout
    | NodeRefOnlyNotSupported
    | UiaFailed

  // ---------------------------------------------------------------- calls

  /** Where a call stands, in program order. From `Inside` to `Submitted` it holds its surface's lock. */
  datatype Phase =
    | Fresh            // nothing checked
    | SignatureOk
    | TimeOk
    | Marked           // this call's try_mark_redeemed succeeded
    | Queued           // has its surface's lock object, waits for it
    | Inside           // holds the lock
    | SurfaceOk
    | BindingOk
    | ActiveOk
    | GenerationOk
    | Admitted         // Redeemed recorded
    | Vetted(plan: Effect)       // parameters and their hash are right; `plan` is what they ask for
    | Announced(plan: Effect)    // Started recorded
    | Armed(plan: Effect)        // navigate: waiter armed, navigation not yet issued
    | Issued(plan: Effect)       // navigate: waiting for the outcome
    | Capturing(plan: Effect)    // screenshot: waiting
    | Rooted(plan: Effect)       // UIA: window handle obtained, not yet submitted
    | Submitted(plan: Effect)    // UIA: waiting
    | Finished(reply: Reply)

  datatype Call = Call(
    grant: Grant,
    signature: string,
    params: Option<Params>,
    phase: Phase,
    lock: LockId,
    waiter: WaiterId)

  predicate InSection(p: Phase) {
    match p
    case Fresh => false
    case SignatureOk => false
    case TimeOk => false
    case Marked => false
    case Queued => false
    case Finished(_) => false
    case _ => true
  }

  /** The call has marked its grant and is still running. */
  predicate PastMark(p: Phase) {
    p == Marked || p == Queued || InSection(p)
  }

  predicate WaitsForNavigation(p: Phase) {
    p.Armed? || p.Issued?
  }

  // ---------------------------------------------------------------- shared state

  /** A surface's navigation state, shared with its event handlers. */
  datatype Navigation = Navigation(generation: nat, slot: Option<WaiterId>)

  /** A one-shot channel: `outcome` is what was sent, `closed` that the sender is gone unsent. `armedAt` is
      how many resolving events had happened when it was made. */
  datatype Waiter = Waiter(surface: string, armedAt: nat, outcome: Option<NavigationOutcome>, closed: bool)

  /** A denied navigation start or a completion: the events that resolve a waiter. */
  datatype Event = Event(surface: string, outcome: NavigationOutcome)

  datatype World = World(
    markedBy: map<string, CallId>,      // RedeemedGrantTracker; who marked is kept for the proof
    lockOf: map<string, LockId>,        // SurfaceRedeemLocks
    lockCount: nat,
    holder: map<LockId, CallId>,
    live: set<string>,                  // BrowserRuntime's registry
    navigation: map<string, Navigation>,
    bindings: map<string, ProfileKey>,  // ActiveProfileSurfaces
    active: Option<ProfileKey>,
    waiters: seq<Waiter>,
    events: seq<Event>,
    log: seq<Item>,
    calls: map<CallId, Call>)

  ghost predicate Initial(w: World) {
    && w.markedBy == map[] && w.lockOf == map[] && w.lockCount == 0 && w.holder == map[]
    && w.live == {} && w.navigation == map[] && w.bindings == map[] && w.active == None
    && w.waiters == [] && w.events == [] && w.log == [] && w.calls == map[]
  }

  // ---------------------------------------------------------------- checks

  function ToUiaSelector(s: Selector): Option<UiaSelector> {
    if s.role.None? && s.accessibleName.None? then None
    else Some(UiaSelector(s.role, s.accessibleName))
  }

  /** Every selector names a role or an accessible name. */
  predicate SelectorsUsable(p: Params) {
    match p
    case Extract(m) => forall k :: k in m ==> ToUiaSelector(m[k]).Some?
    case Click(s) => ToUiaSelector(s).Some?
    case Type(s, _) => ToUiaSelector(s).Some?
    case _ => true
  }

  function EffectOf(surface: string, p: Params): Effect
    requires SelectorsUsable(p)
  {
    match p
    case Navigate(url, _) => NavigateTo(surface, url)
    case Screenshot(_) => Capture(surface)
    case Read => Submit(surface, UiaRead)
    case Extract(m) => Submit(surface, UiaExtract(map k | k in m :: ToUiaSelector(m[k]).value))
    case Click(s) => Submit(surface, UiaClick(ToUiaSelector(s).value))
    case Type(s, text) => Submit(surface, UiaType(ToUiaSelector(s).value, text))
  }

  function KindOf(e: Effect): Kind {
    match e
    case NavigateTo(_, _) => NavigateKind
    case Capture(_) => ScreenshotKind
    case Submit(_, UiaRead) => ReadKind
    case Submit(_, UiaExtract(_)) => ExtractKind
    case Submit(_, UiaClick(_)) => ClickKind
    case Submit(_, UiaType(_, _)) => TypeKind
  }

  const EXECUTABLE := {
    NAVIGATE_CAPABILITY, SCREENSHOT_CAPABILITY, READ_CAPABILITY, EXTRACT_CAPABILITY, CLICK_CAPABILITY, TYPE_CAPABILITY
  }

  predicate SignatureHolds(cfg: Config, call: Call) {
    cfg.verifies(GrantPayload.CanonicalPayload(call.grant), call.signature)
  }

  /** `verify_expiry`: `issued_at <= now < expires_at`. */
  function TimeVerdict(cfg: Config, g: Grant, now: int): Option<ExecutionError> {
    match (cfg.instant(g.issuedAt), cfg.instant(g.expiresAt))
    case (Some(issued), Some(expires)) =>
      if now >= expires then Some(GrantExpired)
      else if now < issued then Some(GrantExpired)
      else None
    case _ => Some(GrantInvalid)
  }

  ghost predicate HashMatches(cfg: Config, call: Call)
    requires call.params.Some?
  {
    cfg.digest(RequestText(TargetOf(call.grant), call.params.value)) == call.grant.parametersHash
  }

  /** The parameters fit the capability, are the ones whose hash the grant carries, and can be honoured. */
  ghost predicate Fits(cfg: Config, call: Call) {
    && call.params.Some?
    && CapabilityOf(call.params.value) == call.grant.capability
    && !(call.params.value.Screenshot? && call.params.value.fullPage)
    && HashMatches(cfg, call)
    && SelectorsUsable(call.params.value)
  }

  // ---------------------------------------------------------------- one call's program

  /** What a step of a call reads of the shared state. */
  datatype Seen = Seen(
    redeemed: bool,
    lockFree: bool,
    present: bool,
    binding: Option<ProfileKey>,
    active: Option<ProfileKey>,
    generation: nat,
    outcome: Option<NavigationOutcome>,
    closed: bool)

  /** What the clock and the platform answer: the time, whether the platform call succeeds, and how a wait ends. */
  datatype Input = Input(now: int, platformOk: bool, wait: Wait)

  datatype Wait =
    | Resolved          // the navigation waiter's outcome
    | ChannelClosed
    | Elapsed           // the timeout
    | CaptureDone
    | CaptureError
    | UiaDone(kind: Kind)
    | UiaError          // a typed failure, PoolExhausted included

  /** The one thing a step does to the shared state besides writing to the log. */
  datatype Op = Nothing | MarkId | RequestLock | TakeLock | ReleaseLock | ArmWaiter

  datatype Move = Move(phase: Phase, acts: seq<Act>, op: Op)

  function Go(p: Phase): Move {
    Move(p, [], Nothing)
  }

  /** Rejected is recorded and the error returned; inside the section this also drops the guard. */
  function Reject(e: ExecutionError, op: Op): Move {
    Move(Finished(Refused(e)), [Audited(Rejected)], op)
  }

  /** The error is returned without an audit entry. */
  function Return(r: Reply): Move {
    Move(Finished(r), [], ReleaseLock)
  }

  function Fail(e: ExecutionError): Move {
    Move(Finished(Refused(e)), [Audited(Failed)], ReleaseLock)
  }

  function Succeed(k: Kind): Move {
    Move(Finished(Executed(k)), [Audited(Succeeded)], ReleaseLock)
  }

  /** A waiting step is possible only when what it waits for has happened; a timeout always can. */
  predicate CanMove(call: Call, seen: Seen, input: Input) {
    match call.phase
    case Queued => seen.lockFree
    case Issued(_) =>
      || (input.wait == Resolved && seen.outcome.Some?)
      || (input.wait == ChannelClosed && seen.outcome.None? && seen.closed)
      || input.wait == Elapsed
    case Capturing(_) => input.wait in {CaptureDone, CaptureError, ChannelClosed, Elapsed}
    case Submitted(_) => input.wait.UiaDone? || input.wait in {UiaError, ChannelClosed, Elapsed}
    case Finished(_) => false
    case _ => true
  }

  /** `execute_granted_action`, one step. */
  ghost function Local(cfg: Config, call: Call, seen: Seen, input: Input): Move
    requires CanMove(call, seen, input)
  {
    match call.phase
    case Fresh =>
      if SignatureHolds(cfg, call) then Go(SignatureOk) else Reject(GrantInvalid, Nothing)
    case SignatureOk =>
      (match TimeVerdict(cfg, call.grant, input.now)
       case Some(e) => Reject(e, Nothing)
       case None => Go(TimeOk))
    case TimeOk =>
      if seen.redeemed then Reject(GrantInvalid, Nothing) else Move(Marked, [], MarkId)
    case Marked => Move(Queued, [], RequestLock)
    case Queued => Move(Inside, [], TakeLock)
    case Inside =>
      if seen.present then Go(SurfaceOk) else Reject(SurfaceNotFound, ReleaseLock)
    case SurfaceOk =>
      if seen.binding == Some(ProfileKey(call.grant.tenantId, call.grant.profileId)) then Go(BindingOk)
      else Reject(ProfileNotFound, ReleaseLock)
    case BindingOk =>
      if seen.active == Some(ProfileKey(call.grant.tenantId, call.grant.profileId)) then Go(ActiveOk)
      else Reject(ProfileNotFound, ReleaseLock)
    case ActiveOk =>
      (match call.grant.generation
       case None => Go(GenerationOk)
       case Some(claimed) =>
         if !seen.present then Return(Refused(SurfaceNotFound))
         else if seen.generation != claimed then Reject(StaleReference, ReleaseLock)
         else Go(GenerationOk))
    case GenerationOk => Move(Admitted, [Audited(Redeemed)], Nothing)
    case Admitted => Vet(cfg, call)
    case Vetted(plan) => Move(Announced(plan), [Audited(Started)], Nothing)
    case Announced(plan) => Begin(plan, seen, input)
    case Armed(plan) => IssueNavigation(plan, seen, input)
    case Issued(_) => FinishNavigation(seen, input)
    case Capturing(_) => FinishCapture(input)
    case Rooted(plan) => SubmitOperation(plan, input)
    case Submitted(plan) => FinishOperation(plan, input)
  }

  /** The head of each `execute_*`: parameters, full-page refusal, hash, selectors, in that order. */
  ghost function Vet(cfg: Config, call: Call): Move {
    if call.grant.capability !in EXECUTABLE then Return(NotYetEnabled)
    else if call.params.None? || CapabilityOf(call.params.value) != call.grant.capability
    then Return(Refused(ParametersRequired))
    else if call.params.value.Screenshot? && call.params.value.fullPage then Return(Refused(FullPageNotYetSupported))
    else if !HashMatches(cfg, call) then Reject(GrantInvalid, ReleaseLock)
    else if !SelectorsUsable(call.params.value) then Return(Refused(NodeRefOnlyNotSupported))
    else Go(Vetted(EffectOf(call.grant.surfaceId, call.params.value)))
  }

  /** After Started: arm the waiter, start the capture, or ask for the window handle. */
  function Begin(plan: Effect, seen: Seen, input: Input): Move {
    match plan
    case NavigateTo(_, _) =>
      if seen.present then Move(Armed(plan), [], ArmWaiter) else Return(Refused(InternalError))
    case Capture(_) =>
      if seen.present && input.platformOk then Move(Capturing(plan), [Performed(plan)], Nothing)
      else Move(Finished(Refused(InternalError)), [Performed(plan)], ReleaseLock)
    case Submit(_, _) =>
      if seen.present && input.platformOk then Go(Rooted(plan)) else Return(Refused(InternalError))
  }

  function IssueNavigation(plan: Effect, seen: Seen, input: Input): Move {
    if seen.present && input.platformOk then Move(Issued(plan), [Performed(plan)], Nothing)
    else Move(Finished(Refused(InternalError)), [Performed(plan), Audited(Failed)], ReleaseLock)
  }

  function FinishNavigation(seen: Seen, input: Input): Move {
    match input.wait
    case Elapsed => Fail(Timeout)
    case ChannelClosed => Fail(InternalError)
    case _ =>
      match seen.outcome
      case Some(Arrived) => Succeed(NavigateKind)
      case Some(PolicyDenied(reason)) => Fail(DeniedByPolicy(reason))
      case Some(LoadFailed(status)) => Fail(NavigationFailed(status))
      case None => Fail(InternalError)
  }

  function FinishCapture(input: Input): Move {
    match input.wait
    case CaptureDone => Succeed(ScreenshotKind)
    case CaptureError => Fail(ScreenshotFailed)
    case Elapsed => Fail(Timeout)
    case _ => Fail(InternalError)
  }

  /** `pool.submit` on a blocking thread: accepted, refused with a typed error, or the task panicked. */
  function SubmitOperation(plan: Effect, input: Input): Move {
    if !input.platformOk then Move(Finished(Refused(InternalError)), [Performed(plan), Audited(Failed)], ReleaseLock)
    else if input.wait == UiaError
    then Move(Finished(Refused(UiaFailed)), [Performed(plan), Audited(Failed)], ReleaseLock)
    else Move(Submitted(plan), [Performed(plan)], Nothing)
  }

  /** `finish_uia_operation`: an outcome of another shape is a failure. */
  function FinishOperation(plan: Effect, input: Input): Move {
    match input.wait
    case UiaDone(kind) => if kind == KindOf(plan) then Succeed(kind) else Fail(InternalError)
    case UiaError => Fail(UiaFailed)
    case Elapsed => Fail(Timeout)
    case _ => Fail(InternalError)
  }

  // ---------------------------------------------------------------- a step applied

  function See(w: World, call: Call): Seen {
    var s := call.grant.surfaceId;
    Seen(
      call.grant.grantId in w.markedBy,
      call.lock !in w.holder,
      s in w.live,
      if s in w.bindings then Some(w.bindings[s]) else None,
      w.active,
      if s in w.navigation then w.navigation[s].generation else 0,
      if call.waiter < |w.waiters| then w.waiters[call.waiter].outcome else None,
      call.waiter < |w.waiters| && w.waiters[call.waiter].closed)
  }

  function Tag(c: CallId, acts: seq<Act>): seq<Item> {
    seq(|acts|, i requires 0 <= i < |acts| => Item(c, acts[i]))
  }

  /** The log and the call's phase; then the shared operation. */
  function Apply(w: World, c: CallId, m: Move): World
    requires c in w.calls
  {
    Operate(Advance(w, c, m), c, m.op)
  }

  function Advance(w: World, c: CallId, m: Move): World
    requires c in w.calls
  {
    w.(log := w.log + Tag(c, m.acts), calls := w.calls[c := w.calls[c].(phase := m.phase)])
  }

  function Operate(w: World, c: CallId, op: Op): World
    requires c in w.calls
  {
    var call := w.calls[c];
    match op
    case Nothing => w
    case MarkId => w.(markedBy := w.markedBy[call.grant.grantId := c])
    case RequestLock => LockFor(w, c, call)
    case TakeLock => w.(holder := w.holder[call.lock := c])
    case ReleaseLock => w.(holder := w.holder - {call.lock})
    case ArmWaiter => Arm(w, c, call)
  }

  /** `lock_for`: the surface's lock, created on first use and never replaced. */
  function LockFor(w: World, c: CallId, call: Call): World {
    var s := call.grant.surfaceId;
    if s in w.lockOf then w.(calls := w.calls[c := call.(lock := w.lockOf[s])])
    else w.(lockOf := w.lockOf[s := w.lockCount], lockCount := w.lockCount + 1,
            calls := w.calls[c := call.(lock := w.lockCount)])
  }

  /** The sender in a slot is dropped. */
  function CloseSlot(waiters: seq<Waiter>, slot: Option<WaiterId>): seq<Waiter> {
    if slot.Some? && slot.value < |waiters| then waiters[slot.value := waiters[slot.value].(closed := true)]
    else waiters
  }

  /** `arm_navigation_waiter`: a fresh channel goes into the slot, whatever was there. */
  function Arm(w: World, c: CallId, call: Call): World {
    var s := call.grant.surfaceId;
    if s !in w.navigation then w
    else
      var i := |w.waiters|;
      w.(waiters := CloseSlot(w.waiters, w.navigation[s].slot) + [Waiter(s, |w.events|, None, false)],
         navigation := w.navigation[s := w.navigation[s].(slot := Some(i))],
         calls := w.calls[c := call.(waiter := i)])
  }

  // ---------------------------------------------------------------- everything else

  datatype Label =
    | Step(c: CallId, input: Input)
    | Spawn(c: CallId, grant: Grant, signature: string, params: Option<Params>)
    | CreateSurface(s: string)
    | DestroySurface(s: string)
    | DestroyAll
    | DropHandlers(s: string)             // a closed webview's handlers go, and with them the slot's sender
    | Bind(s: string, key: ProfileKey)
    | Unbind(s: string)
    | TakeAll
    | SetActive(profile: Option<ProfileKey>)  // None clears
    | NavigationStarting(s: string, decision: NavigationPolicy.Decision)
    | NavigationCompleted(s: string, outcome: NavigationOutcome)

  predicate Enabled(w: World, l: Label) {
    match l
    case Step(c, input) => c in w.calls && CanMove(w.calls[c], See(w, w.calls[c]), input)
    case Spawn(c, _, _, _) => c !in w.calls
    case CreateSurface(s) => s !in w.navigation        // ids are never reused
    case DestroySurface(s) => s in w.live
    case DropHandlers(s) => s in w.navigation && s !in w.live
    case NavigationStarting(s, _) => s in w.navigation
    case NavigationCompleted(s, o) => s in w.navigation && !o.PolicyDenied?
    case _ => true
  }

  ghost function Next(cfg: Config, w: World, l: Label): World
    requires Enabled(w, l)
  {
    match l
    case Step(c, input) => Apply(w, c, Local(cfg, w.calls[c], See(w, w.calls[c]), input))
    case _ => Environment(w, l)
  }

  /** `fetch_add(1)` on an `AtomicU64`: it wraps. */
  function Increment(n: nat): nat {
    if n == GENERATIONS - 1 then 0 else n + 1
  }

  function Environment(w: World, l: Label): World
    requires !l.Step? && Enabled(w, l)
  {
    match l
    case Spawn(c, grant, signature, params) => w.(calls := w.calls[c := Call(grant, signature, params, Fresh, 0, 0)])
    case CreateSurface(s) => w.(live := w.live + {s}, navigation := w.navigation[s := Navigation(0, None)])
    case DestroySurface(s) => w.(live := w.live - {s})
    case DestroyAll => w.(live := {})
    case DropHandlers(s) =>
      w.(waiters := CloseSlot(w.waiters, w.navigation[s].slot),
         navigation := w.navigation[s := w.navigation[s].(slot := None)])
    case Bind(s, key) => w.(bindings := w.bindings[s := key])
    case Unbind(s) => w.(bindings := w.bindings - {s})
    case TakeAll => w.(bindings := map[], active := None)
    case SetActive(profile) => w.(active := profile)
    case NavigationStarting(s, Allow) => Count(w, s)
    case NavigationStarting(s, Deny(reason)) => Resolve(w, s, PolicyDenied(reason))
    case NavigationCompleted(s, outcome) => Resolve(w, s, outcome)
  }

  /** One more allowed navigation start. */
  function Count(w: World, s: string): World
    requires s in w.navigation
  {
    w.(navigation := w.navigation[s := w.navigation[s].(generation := Increment(w.navigation[s].generation))])
  }

  /** `resolve_navigation_waiter`: the slot is emptied and its sender, if any, used. */
  function Resolve(w: World, s: string, outcome: NavigationOutcome): World
    requires s in w.navigation
  {
    var slot := w.navigation[s].slot;
    w.(events := w.events + [Event(s, outcome)],
       waiters := if slot.Some? && slot.value < |w.waiters|
                  then w.waiters[slot.value := w.waiters[slot.value].(outcome := Some(outcome))] else w.waiters,
       navigation := w.navigation[s := w.navigation[s].(slot := None)])
  }

  // ---------------------------------------------------------------- runs

  ghost predicate StepAt(cfg: Config, worlds: seq<World>, labels: seq<Label>, i: nat)
    requires i < |labels| && |worlds| == |labels| + 1
  {
    Enabled(worlds[i], labels[i]) && worlds[i + 1] == Next(cfg, worlds[i], labels[i])
  }

  ghost predicate IsRun(cfg: Config, worlds: seq<World>, labels: seq<Label>) {
    && |worlds| == |labels| + 1
    && Initial(worlds[0])
    && forall i: nat :: i < |labels| ==> StepAt(cfg, worlds, labels, i)
  }
}
