/** The redeem protocol over whole runs: every interleaving of any number of calls, events and
    environment changes. */
module RedeemRuns {
  import opened Wrappers
  import opened BackendEncoding
  import opened GrantParameters
  import opened GrantPayload
  import opened ProfileKeys
  import opened RedeemProtocol
  import opened RedeemSafety
  import opened RedeemSpec
  import opened NavigationWaiters
  import NavigationPolicy

  ghost predicate Sound(cfg: Config, w: World) {
    LogExplained(cfg, w) && MarksSound(w) && LocksSound(w) && ChannelsSound(w) && RepliesGrounded(w)
  }

  lemma InitialIsSound(cfg: Config, w: World)
    requires Initial(w)
    ensures Sound(cfg, w)
  {}

  lemma StepKeepsSound(cfg: Config, w: World, l: Label)
    requires Sound(cfg, w) && Enabled(w, l)
    ensures Sound(cfg, Next(cfg, w, l))
  {
    if l.Step? {
      StepKeepsLogExplained(cfg, w, l.c, l.input);
      StepKeepsMarks(cfg, w, l.c, l.input);
      StepKeepsLocks(cfg, w, l.c, l.input);
      StepKeepsChannels(cfg, w, l.c, l.input);
      StepKeepsReplies(cfg, w, l.c, l.input);
    } else {
      EnvironmentKeepsLogExplained(cfg, w, l);
      EnvironmentKeepsMarks(cfg, w, l);
      EnvironmentKeepsLocks(cfg, w, l);
      EnvironmentKeepsChannels(cfg, w, l);
      EnvironmentKeepsReplies(cfg, w, l);
    }
  }

  lemma {:induction false} RunsAreSound(cfg: Config, worlds: seq<World>, labels: seq<Label>, n: nat)
    requires IsRun(cfg, worlds, labels) && n < |worlds|
    ensures Sound(cfg, worlds[n])
  {
    if n == 0 {
      InitialIsSound(cfg, worlds[0]);
    } else {
      RunsAreSound(cfg, worlds, labels, n - 1);
      assert StepAt(cfg, worlds, labels, n - 1);
      StepKeepsSound(cfg, worlds[n - 1], labels[n - 1]);
    }
  }

  // ---------------------------------------------------------------- one call per surface

  /** In every run at most one call is inside the section of a surface. */
  lemma OneCallInside(cfg: Config, worlds: seq<World>, labels: seq<Label>, n: nat, c: CallId, d: CallId)
    requires IsRun(cfg, worlds, labels) && n < |worlds| && c in worlds[n].calls && d in worlds[n].calls
    requires InSection(worlds[n].calls[c].phase) && InSection(worlds[n].calls[d].phase)
    requires worlds[n].calls[c].grant.surfaceId == worlds[n].calls[d].grant.surfaceId
    ensures c == d
  {
    RunsAreSound(cfg, worlds, labels, n);
    OneCallPerSurface(worlds[n], c, d);
  }

  /** In every run, when a call arms its surface's waiter, no call waits on the sender it overwrites. */
  lemma ArmingInRunAbandonsNobody(cfg: Config, worlds: seq<World>, labels: seq<Label>, n: nat, c: CallId, d: CallId)
    requires IsRun(cfg, worlds, labels) && n < |worlds| && c in worlds[n].calls && d in worlds[n].calls
    requires worlds[n].calls[c].phase.Announced? && worlds[n].calls[c].grant.surfaceId in worlds[n].live
    requires WaitsForNavigation(worlds[n].calls[d].phase)
    ensures worlds[n].calls[c].grant.surfaceId in worlds[n].navigation
            && worlds[n].navigation[worlds[n].calls[c].grant.surfaceId].slot != Some(worlds[n].calls[d].waiter)
    ensures worlds[n].calls[d].grant.surfaceId != worlds[n].calls[c].grant.surfaceId
  {
    RunsAreSound(cfg, worlds, labels, n);
    ArmingAbandonsNobody(worlds[n], c, d);
  }

  // ---------------------------------------------------------------- one effect per grant

  /** In every run at most one effect is ever performed for a grant id, whatever the backend issues and
      however often, and only by the call that marked that id. */
  lemma OneEffectPerGrant(cfg: Config, worlds: seq<World>, labels: seq<Label>, n: nat, i: nat, j: nat)
    requires IsRun(cfg, worlds, labels) && n < |worlds|
    requires i < |worlds[n].log| && j < |worlds[n].log|
    requires worlds[n].log[i].act.Performed? && worlds[n].log[j].act.Performed?
    ensures IsMarker(worlds[n], worlds[n].log[i].call) && IsMarker(worlds[n], worlds[n].log[j].call)
    ensures GrantIdOf(worlds[n], worlds[n].log[i].call) == GrantIdOf(worlds[n], worlds[n].log[j].call) ==> i == j
  {
    RunsAreSound(cfg, worlds, labels, n);
    var w := worlds[n];
    assert IsMarker(w, w.log[i].call) && IsMarker(w, w.log[j].call);
  }

  /** So the bytes that were signed buy at most one effect, as long as grant ids hold no colon: two effects for grants
      with the same signed bytes are the same one. */
  lemma OneEffectPerPayload(cfg: Config, worlds: seq<World>, labels: seq<Label>, n: nat, i: nat, j: nat)
    requires IsRun(cfg, worlds, labels) && n < |worlds|
    requires i < |worlds[n].log| && j < |worlds[n].log|
    requires worlds[n].log[i].act.Performed? && worlds[n].log[j].act.Performed?
    ensures worlds[n].log[i].call in worlds[n].calls && worlds[n].log[j].call in worlds[n].calls
    ensures var g, h := worlds[n].calls[worlds[n].log[i].call].grant, worlds[n].calls[worlds[n].log[j].call].grant;
            NoColon(g.grantId) && NoColon(h.grantId) && CanonicalPayload(g) == CanonicalPayload(h) ==> i == j
  {
    OneEffectPerGrant(cfg, worlds, labels, n, i, j);
    var g, h := worlds[n].calls[worlds[n].log[i].call].grant, worlds[n].calls[worlds[n].log[j].call].grant;
    if NoColon(g.grantId) && NoColon(h.grantId) && CanonicalPayload(g) == CanonicalPayload(h) {
      PayloadNamesTheId(g, h);
    }
  }

  // ---------------------------------------------------------------- the effect is the minted one

  lemma ExplainedEffectIsPlanned(cfg: Config, call: Call, acts: seq<Act>, e: Effect)
    requires Explains(cfg, call, acts) && Performed(e) in acts
    ensures Planned(cfg, call, e)
  {
    if call.phase.Finished? {
      ReplyEffectIsPlanned(cfg, call, call.phase.reply, acts, e);
    }
  }

  lemma ReplyEffectIsPlanned(cfg: Config, call: Call, reply: Reply, acts: seq<Act>, e: Effect)
    requires ExplainsReply(cfg, call, reply, acts) && Performed(e) in acts
    ensures Planned(cfg, call, e)
  {
    var i :| 0 <= i < |acts| && acts[i] == Performed(e);
    match reply
    case NotYetEnabled =>
    case Executed(kind) => SuccessEffectIsPlanned(cfg, call, kind, acts, e, i);
    case Refused(error) =>
      RefusalWithEffect(cfg, call, error, acts, i);
      FailedEffectIsPlanned(cfg, call, error, acts, e, i);
  }

  lemma PlanOfSuccess(cfg: Config, call: Call, kind: Kind, acts: seq<Act>) returns (plan: Effect)
    requires ExplainsReply(cfg, call, Executed(kind), acts)
    ensures Planned(cfg, call, plan)
            && acts == [Audited(Redeemed), Audited(Started), Performed(plan), Audited(Succeeded)]
  {
    plan :| Planned(cfg, call, plan) && kind == KindOf(plan)
            && acts == [Audited(Redeemed), Audited(Started), Performed(plan), Audited(Succeeded)];
  }

  lemma SuccessEffectIsPlanned(cfg: Config, call: Call, kind: Kind, acts: seq<Act>, e: Effect, i: nat)
    requires ExplainsReply(cfg, call, Executed(kind), acts) && i < |acts| && acts[i] == Performed(e)
    ensures Planned(cfg, call, e) && i == 2 && acts[..2] == [Audited(Redeemed), Audited(Started)]
  {
    var plan := PlanOfSuccess(cfg, call, kind, acts);
    TheOneEffect(acts, plan, e, i, Succeeded);
  }

  /** Of a refused call's logs only those of a failure after the effect hold an effect. */
  lemma RefusalWithEffect(cfg: Config, call: Call, error: ExecutionError, acts: seq<Act>, i: nat)
    requires ExplainsReply(cfg, call, Refused(error), acts) && i < |acts| && acts[i].Performed?
    ensures FailedAfterEffect(cfg, call, error, acts)
  {}

  lemma FailedEffectIsPlanned(cfg: Config, call: Call, error: ExecutionError, acts: seq<Act>, e: Effect, i: nat)
    requires FailedAfterEffect(cfg, call, error, acts) && i < |acts| && acts[i] == Performed(e)
    ensures Planned(cfg, call, e) && i == 2 && acts[..2] == [Audited(Redeemed), Audited(Started)]
  {
    var plan :| Planned(cfg, call, plan)
                && (|| (acts == [Audited(Redeemed), Audited(Started), Performed(plan)]
                        && error == InternalError && plan.Capture?)
                    || (acts == [Audited(Redeemed), Audited(Started), Performed(plan), Audited(Failed)]
                        && LateError(error)));
    TheOneEffect(acts, plan, e, i, Failed);
  }

  lemma TheOneEffect(acts: seq<Act>, plan: Effect, e: Effect, i: nat, last: AuditEvent)
    requires || acts == [Audited(Redeemed), Audited(Started), Performed(plan)]
             || acts == [Audited(Redeemed), Audited(Started), Performed(plan), Audited(last)]
    requires i < |acts| && acts[i] == Performed(e)
    ensures e == plan && i == 2 && acts[..2] == [Audited(Redeemed), Audited(Started)]
  {}

  lemma PlannedIsAsked(cfg: Config, call: Call, e: Effect)
    requires Planned(cfg, call, e)
    ensures Signed(cfg, call) && HasParameters(call) && Carries(cfg, call.grant, call.params.value)
    ensures Asks(call.params.value, call.grant.surfaceId, e)
  {
    CapabilitiesAgree(call.params.value);
    EffectIsAsked(call.params.value, call.grant.surfaceId);
  }

  /** Every effect in a run is what its own call's verified grant and hashed parameters ask for, on the grant's own
      surface. */
  lemma EffectsArePlanned(cfg: Config, worlds: seq<World>, labels: seq<Label>, n: nat, i: nat)
    requires IsRun(cfg, worlds, labels) && n < |worlds|
    requires i < |worlds[n].log| && worlds[n].log[i].act.Performed?
    ensures worlds[n].log[i].call in worlds[n].calls
    ensures var call := worlds[n].calls[worlds[n].log[i].call];
            && Planned(cfg, call, worlds[n].log[i].act.effect)
            && Signed(cfg, call) && HasParameters(call) && Carries(cfg, call.grant, call.params.value)
            && Asks(call.params.value, call.grant.surfaceId, worlds[n].log[i].act.effect)
  {
    var w := worlds[n];
    var c := w.log[i].call;
    RunsAreSound(cfg, worlds, labels, n);
    ProjectHasEveryAct(w.log, i);
    ExplainedEffectIsPlanned(cfg, w.calls[c], Project(w.log, c), w.log[i].act.effect);
    PlannedIsAsked(cfg, w.calls[c], w.log[i].act.effect);
  }

  /** Every effect is that of a grant whose signature verified, and of exactly the request the backend minted it
      for: if the grant carries the backend's hash of a request, the effect is the one that request asks for. */
  lemma EffectsAreMinted(cfg: Config, worlds: seq<World>, labels: seq<Label>, n: nat, i: nat, u: Target, q: Params)
    requires IsRun(cfg, worlds, labels) && n < |worlds| && CollisionFree(cfg.digest)
    requires i < |worlds[n].log| && worlds[n].log[i].act.Performed? && worlds[n].log[i].call in worlds[n].calls
    requires worlds[n].calls[worlds[n].log[i].call].grant.parametersHash == cfg.digest(BackendText(u, q))
    ensures var call := worlds[n].calls[worlds[n].log[i].call];
            && Signed(cfg, call) && CapabilityFor(q) == call.grant.capability && call.params == Some(q)
            && u == Target(call.grant.profileId, call.grant.surfaceId, call.grant.generation)
            && Asks(q, call.grant.surfaceId, worlds[n].log[i].act.effect)
            && PlainRequest(u, q)
  {
    var call := worlds[n].calls[worlds[n].log[i].call];
    EffectsArePlanned(cfg, worlds, labels, n, i);
    DesktopHashIsMintedHash(cfg.digest, TargetOf(call.grant), call.params.value, u, q);
  }

  /** A grant minted for a request with a character above U+007E never passes, whatever comes with it: parameters that
      are missing, of another variant or ask for a full page are refused as for any grant, and all others because the
      hash does not match. */
  lemma MintedOutsideAsciiIsRefused(cfg: Config, call: Call, u: Target, q: Params)
    requires CollisionFree(cfg.digest) && call.grant.parametersHash == cfg.digest(BackendText(u, q))
    requires !PlainRequest(u, q)
    ensures Vet(cfg, call) ==
            if call.grant.capability !in EXECUTABLE then Return(NotYetEnabled)
            else if call.params.None? || CapabilityOf(call.params.value) != call.grant.capability
            then Return(Refused(ParametersRequired))
            else if call.params.value.Screenshot? && call.params.value.fullPage
            then Return(Refused(FullPageNotYetSupported))
            else Reject(GrantInvalid, ReleaseLock)
  {
    if call.params.Some? {
      DesktopHashIsMintedHash(cfg.digest, TargetOf(call.grant), call.params.value, u, q);
    }
  }

  /** So no run ever performs an effect for it or reports it carried out. */
  lemma MintedOutsideAsciiNeverPerforms(
    cfg: Config, worlds: seq<World>, labels: seq<Label>, n: nat, c: CallId, u: Target, q: Params)
    requires IsRun(cfg, worlds, labels) && n < |worlds| && c in worlds[n].calls && CollisionFree(cfg.digest)
    requires worlds[n].calls[c].grant.parametersHash == cfg.digest(BackendText(u, q)) && !PlainRequest(u, q)
    ensures forall i :: 0 <= i < |worlds[n].log| && worlds[n].log[i].call == c ==> !worlds[n].log[i].act.Performed?
    ensures !(worlds[n].calls[c].phase.Finished? && worlds[n].calls[c].phase.reply.Executed?)
  {
    forall i | 0 <= i < |worlds[n].log| && worlds[n].log[i].call == c ensures !worlds[n].log[i].act.Performed? {
      if worlds[n].log[i].act.Performed? {
        EffectsAreMinted(cfg, worlds, labels, n, i, u, q);
      }
    }
    RunsAreSound(cfg, worlds, labels, n);
    ExecutedIsPlanned(cfg, worlds[n].calls[c], Project(worlds[n].log, c));
    if worlds[n].calls[c].phase.Finished? && worlds[n].calls[c].phase.reply.Executed? {
      DesktopHashIsMintedHash(cfg.digest, TargetOf(worlds[n].calls[c].grant), worlds[n].calls[c].params.value, u, q);
    }
  }

  lemma ExecutedIsPlanned(cfg: Config, call: Call, acts: seq<Act>)
    requires Explains(cfg, call, acts)
    ensures call.phase.Finished? && call.phase.reply.Executed? ==> exists plan :: Planned(cfg, call, plan)
  {
    if call.phase.Finished? && call.phase.reply.Executed? {
      var plan := PlanOfSuccess(cfg, call, call.phase.reply.kind, acts);
    }
  }

  // ---------------------------------------------------------------- the audit trail of one call

  /** The audit entries among a call's acts. */
  function Trail(acts: seq<Act>): seq<AuditEvent> {
    if |acts| == 0 then []
    else if acts[0].Audited? then [acts[0].event] + Trail(acts[1..])
    else Trail(acts[1..])
  }

  lemma TrailAppend(acts: seq<Act>, last: Act)
    ensures Trail(acts + [last]) == Trail(acts) + if last.Audited? then [last.event] else []
  {
    if |acts| == 0 {
      assert acts + [last] == [last];
      assert [last][1..] == [];
    } else {
      assert (acts + [last])[1..] == acts[1..] + [last];
      TrailAppend(acts[1..], last);
    }
  }

  lemma TrailOfTwo(a: AuditEvent, b: AuditEvent)
    ensures Trail([Audited(a)]) == [a]
    ensures Trail([Audited(a), Audited(b)]) == [a, b]
  {}

  lemma TrailOfEffect(e: Effect, last: AuditEvent)
    ensures Trail([Audited(Redeemed), Audited(Started), Performed(e)]) == [Redeemed, Started]
    ensures Trail([Audited(Redeemed), Audited(Started), Performed(e), Audited(last)]) == [Redeemed, Started, last]
  {
    var two := [Audited(Redeemed), Audited(Started)];
    var three := [Audited(Redeemed), Audited(Started), Performed(e)];
    TrailOfTwo(Redeemed, Started);
    TrailAppend(two, Performed(e));
    TrailAppend(three, Audited(last));
    assert two + [Performed(e)] == three;
    assert three + [Audited(last)] == [Audited(Redeemed), Audited(Started), Performed(e), Audited(last)];
  }

  /** What a finished call may have written to the audit log, by its reply. */
  predicate TrailFits(reply: Reply, claimsGeneration: bool, trail: seq<AuditEvent>) {
    match reply
    case NotYetEnabled => trail == [Redeemed]
    case Executed(_) => trail == [Redeemed, Started, Succeeded]
    case Refused(e) =>
      || (trail == [] && e == SurfaceNotFound && claimsGeneration)
      || (trail == [Rejected] && e in {GrantInvalid, GrantExpired, SurfaceNotFound, ProfileNotFound, StaleReference})
      || (trail == [Redeemed] && e in {ParametersRequired, FullPageNotYetSupported, NodeRefOnlyNotSupported})
      || (trail == [Redeemed, Rejected] && e == GrantInvalid)
      || (trail == [Redeemed, Started] && e == InternalError)
      || (trail == [Redeemed, Started, Failed] && LateError(e))
  }

  lemma ExplainedTrailFits(cfg: Config, call: Call, reply: Reply, acts: seq<Act>)
    requires ExplainsReply(cfg, call, reply, acts)
    ensures TrailFits(reply, call.grant.generation.Some?, Trail(acts))
  {
    match reply
    case NotYetEnabled => TrailOfTwo(Redeemed, Redeemed);
    case Executed(kind) =>
      var plan := PlanOfSuccess(cfg, call, kind, acts);
      TrailOfEffect(plan, Succeeded);
    case Refused(e) =>
      if FailedAfterEffect(cfg, call, e, acts) {
        FailureTrail(cfg, call, e, acts);
      } else {
        TrailOfTwo(Rejected, Rejected);
        TrailOfTwo(Redeemed, Rejected);
        TrailOfTwo(Redeemed, Started);
      }
  }

  lemma FailureTrail(cfg: Config, call: Call, e: ExecutionError, acts: seq<Act>)
    requires FailedAfterEffect(cfg, call, e, acts)
    ensures || (Trail(acts) == [Redeemed, Started] && e == InternalError)
            || (Trail(acts) == [Redeemed, Started, Failed] && LateError(e))
  {
    var plan :| Planned(cfg, call, plan)
                && (|| (acts == [Audited(Redeemed), Audited(Started), Performed(plan)]
                        && e == InternalError && plan.Capture?)
                    || (acts == [Audited(Redeemed), Audited(Started), Performed(plan), Audited(Failed)]
                        && LateError(e)));
    TrailOfEffect(plan, Failed);
  }

  /** Projecting the shared log on one returned call gives one of the seven trails. Succeeded is written
      exactly when a real execution result is returned; nothing is written only when the surface vanished
      at the generation check; and an effect is preceded by Redeemed and Started. */
  lemma AuditTrailOfACall(cfg: Config, worlds: seq<World>, labels: seq<Label>, n: nat, c: CallId)
    requires IsRun(cfg, worlds, labels) && n < |worlds|
    requires c in worlds[n].calls && worlds[n].calls[c].phase.Finished?
    ensures var call := worlds[n].calls[c];
            var acts := Project(worlds[n].log, c);
            && TrailFits(call.phase.reply, call.grant.generation.Some?, Trail(acts))
            && (Trail(acts) == [Redeemed, Started, Succeeded] <==> call.phase.reply.Executed?)
            && (forall i :: 0 <= i < |acts| && acts[i].Performed? ==>
                  acts[..i] == [Audited(Redeemed), Audited(Started)])
  {
    RunsAreSound(cfg, worlds, labels, n);
    var call := worlds[n].calls[c];
    var acts := Project(worlds[n].log, c);
    assert Explains(cfg, call, acts);
    ExplainedTrailFits(cfg, call, call.phase.reply, acts);
    EffectIsThird(cfg, call, call.phase.reply, acts);
  }

  lemma EffectIsThird(cfg: Config, call: Call, reply: Reply, acts: seq<Act>)
    requires ExplainsReply(cfg, call, reply, acts)
    ensures forall i :: 0 <= i < |acts| && acts[i].Performed? ==> acts[..i] == [Audited(Redeemed), Audited(Started)]
  {
    forall i | 0 <= i < |acts| && acts[i].Performed? ensures acts[..i] == [Audited(Redeemed), Audited(Started)] {
      match reply
      case NotYetEnabled =>
      case Executed(kind) => SuccessEffectIsPlanned(cfg, call, kind, acts, acts[i].effect, i);
      case Refused(error) => FailedEffectIsPlanned(cfg, call, error, acts, acts[i].effect, i);
    }
  }

  // ---------------------------------------------------------------- checks before effects

  datatype Milestone = SurfaceLive | BindingMatches | ProfileActive | GenerationMatches

  /** The call is inside its section and past this check. */
  predicate Past(m: Milestone, p: Phase) {
    && InSection(p) && p != Inside
    && match m
       case SurfaceLive => true
       case BindingMatches => p != SurfaceOk
       case ProfileActive => p != SurfaceOk && p != BindingOk
       case GenerationMatches => p != SurfaceOk && p != BindingOk && p != ActiveOk
  }

  /** Where a call stands when it makes this check. */
  function CheckPhase(m: Milestone): Phase {
    match m
    case SurfaceLive => Inside
    case BindingMatches => SurfaceOk
    case ProfileActive => BindingOk
    case GenerationMatches => ActiveOk
  }

  /** What the check saw. */
  ghost predicate Witness(m: Milestone, w: World, g: Grant) {
    var key := ProfileKey(g.tenantId, g.profileId);
    match m
    case SurfaceLive => g.surfaceId in w.live
    case BindingMatches => g.surfaceId in w.bindings && w.bindings[g.surfaceId] == key
    case ProfileActive => w.active == Some(key)
    case GenerationMatches =>
      g.generation.Some? ==> g.surfaceId in w.live && g.surfaceId in w.navigation
                             && w.navigation[g.surfaceId].generation == g.generation.value
  }

  /** From `v` to `w` the call passes the check. */
  ghost predicate PassesIn(v: World, w: World, c: CallId, g: Grant, m: Milestone) {
    && c in v.calls && v.calls[c].phase == CheckPhase(m) && Witness(m, v, g)
    && c in w.calls && Past(m, w.calls[c].phase)
  }

  ghost predicate HoldsItsLock(w: World, c: CallId, g: Grant) {
    && c in w.calls && w.calls[c].grant == g
    && g.surfaceId in w.lockOf && w.lockOf[g.surfaceId] in w.holder && w.holder[w.lockOf[g.surfaceId]] == c
  }

  /** Step `i` is the call's own check, which saw what it asks for and passed, and from then to `n` the call held
      its surface's lock. */
  ghost predicate CheckedAt(worlds: seq<World>, labels: seq<Label>, i: nat, n: nat, c: CallId, g: Grant, m: Milestone)
    requires n < |worlds| && |worlds| == |labels| + 1
  {
    && i < n
    && labels[i].Step? && labels[i].c == c
    && PassesIn(worlds[i], worlds[i + 1], c, g, m)
    && forall j :: i <= j <= n ==> HoldsItsLock(worlds[j], c, g)
  }

  lemma InsideHoldsLock(w: World, c: CallId)
    requires LocksSound(w) && c in w.calls && InSection(w.calls[c].phase)
    ensures HoldsItsLock(w, c, w.calls[c].grant)
  {}

  lemma PassingWitnesses(cfg: Config, w: World, c: CallId, input: Input, m: Milestone)
    requires w.live <= w.navigation.Keys && c in w.calls && CanMove(w.calls[c], See(w, w.calls[c]), input)
    requires var p := Local(cfg, w.calls[c], See(w, w.calls[c]), input).phase;
             Past(m, p) && !Past(m, w.calls[c].phase)
    ensures w.calls[c].phase == CheckPhase(m) && Witness(m, w, w.calls[c].grant)
  {}

  /** One step back: either the check was passed already, or this is the step that passed it. */
  lemma CheckedJustNow(cfg: Config, v: World, l: Label, c: CallId, m: Milestone)
    requires Sound(cfg, v) && Enabled(v, l) && c in Next(cfg, v, l).calls && Past(m, Next(cfg, v, l).calls[c].phase)
    ensures c in v.calls && v.calls[c].grant == Next(cfg, v, l).calls[c].grant
    ensures || Past(m, v.calls[c].phase)
            || (l.Step? && l.c == c && PassesIn(v, Next(cfg, v, l), c, v.calls[c].grant, m)
                && HoldsItsLock(v, c, v.calls[c].grant))
  {
    CallBefore(cfg, v, l, c);
    if !Past(m, v.calls[c].phase) {
      PassingWitnesses(cfg, v, c, l.input, m);
      InsideHoldsLock(v, c);
    }
  }

  lemma InsideHoldsLockInRun(cfg: Config, worlds: seq<World>, labels: seq<Label>, n: nat, c: CallId)
    requires IsRun(cfg, worlds, labels) && n < |worlds| && c in worlds[n].calls && InSection(worlds[n].calls[c].phase)
    ensures n > 0 && HoldsItsLock(worlds[n], c, worlds[n].calls[c].grant)
  {
    RunsAreSound(cfg, worlds, labels, n);
    InsideHoldsLock(worlds[n], c);
  }

  lemma CheckedInStep(cfg: Config, worlds: seq<World>, labels: seq<Label>, n: nat, c: CallId, m: Milestone)
    requires IsRun(cfg, worlds, labels) && 0 < n < |worlds| && c in worlds[n].calls && Past(m, worlds[n].calls[c].phase)
    ensures c in worlds[n - 1].calls && worlds[n - 1].calls[c].grant == worlds[n].calls[c].grant
    ensures || Past(m, worlds[n - 1].calls[c].phase)
            || (labels[n - 1].Step? && labels[n - 1].c == c
                && PassesIn(worlds[n - 1], worlds[n], c, worlds[n].calls[c].grant, m)
                && HoldsItsLock(worlds[n - 1], c, worlds[n].calls[c].grant))
  {
    RunsAreSound(cfg, worlds, labels, n - 1);
    assert StepAt(cfg, worlds, labels, n - 1);
    CheckedJustNow(cfg, worlds[n - 1], labels[n - 1], c, m);
  }

  /** A call past a check made it itself, at an earlier step of the same run, and has held its surface's lock since. */
  lemma {:induction false} CheckedEarlier(
    cfg: Config, worlds: seq<World>, labels: seq<Label>, n: nat, c: CallId, m: Milestone)
    returns (i: nat)
    requires IsRun(cfg, worlds, labels) && n < |worlds|
    requires c in worlds[n].calls && Past(m, worlds[n].calls[c].phase)
    ensures CheckedAt(worlds, labels, i, n, c, worlds[n].calls[c].grant, m)
  {
    InsideHoldsLockInRun(cfg, worlds, labels, n, c);
    CheckedInStep(cfg, worlds, labels, n, c, m);
    if Past(m, worlds[n - 1].calls[c].phase) {
      i := CheckedEarlier(cfg, worlds, labels, n - 1, c, m);
    } else {
      i := n - 1;
    }
  }

  /** A call past a check existed before the last step, and if it was not past the check then, the step was its own. */
  lemma CallBefore(cfg: Config, v: World, l: Label, c: CallId)
    requires Enabled(v, l) && c in Next(cfg, v, l).calls && Next(cfg, v, l).calls[c].phase != Fresh
    ensures c in v.calls && v.calls[c].grant == Next(cfg, v, l).calls[c].grant
    ensures Next(cfg, v, l).calls[c].phase != v.calls[c].phase ==>
              && l.Step? && l.c == c
              && Next(cfg, v, l).calls[c].phase == Local(cfg, v.calls[c], See(v, v.calls[c]), l.input).phase
  {
    if l.Step? {
      ApplyFrame(v, l.c, Local(cfg, v.calls[l.c], See(v, v.calls[l.c]), l.input));
    } else {
      EnvironmentFrame(v, l);
    }
  }

  /** Step `k` is one in which call `c` performs its effect. */
  ghost predicate PerformsAt(cfg: Config, worlds: seq<World>, labels: seq<Label>, k: nat, c: CallId)
    requires IsRun(cfg, worlds, labels) && k < |labels|
  {
    assert StepAt(cfg, worlds, labels, k);
    && labels[k].Step? && labels[k].c == c
    && var m := Local(cfg, worlds[k].calls[c], See(worlds[k], worlds[k].calls[c]), labels[k].input);
       |m.acts| > 0 && m.acts[0].Performed?
  }

  /** Whenever an effect is performed, the same call has earlier, under the surface's lock it has held
      since, seen the surface live, bound to the grant's tenant and profile, that profile declared active,
      and the claimed generation, if any, equal to the live one. */
  lemma EffectsWereChecked(cfg: Config, worlds: seq<World>, labels: seq<Label>, k: nat, c: CallId, m: Milestone)
    returns (i: nat)
    requires IsRun(cfg, worlds, labels) && k < |labels| && PerformsAt(cfg, worlds, labels, k, c)
    ensures c in worlds[k].calls && CheckedAt(worlds, labels, i, k, c, worlds[k].calls[c].grant, m)
  {
    var w := worlds[k];
    assert StepAt(cfg, worlds, labels, k);
    EffectsByPhase(cfg, w.calls[c], See(w, w.calls[c]), labels[k].input);
    i := CheckedEarlier(cfg, worlds, labels, k, c, m);
  }

  // ---------------------------------------------------------------- nothing audited

  lemma ProjectAfter(cfg: Config, w: World, l: Label, c: CallId)
    requires Enabled(w, l) && c in w.calls
    ensures Project(Next(cfg, w, l).log, c)
            == Project(w.log, c)
               + if l.Step? && l.c == c then Local(cfg, w.calls[c], See(w, w.calls[c]), l.input).acts else []
  {
    if l.Step? {
      ProjectApply(w, l.c, Local(cfg, w.calls[l.c], See(w, w.calls[l.c]), l.input), c);
    } else {
      EnvironmentFrame(w, l);
    }
  }

  /** The one return that leaves no trace in the log. */
  lemma SilentReturn(cfg: Config, call: Call, seen: Seen, input: Input)
    requires CanMove(call, seen, input) && Explains(cfg, call, [])
    requires Local(cfg, call, seen, input).phase.Finished? && Local(cfg, call, seen, input).acts == []
    ensures call.phase == ActiveOk && call.grant.generation.Some? && !seen.present
  {}

  lemma SilentInStep(cfg: Config, v: World, l: Label, c: CallId)
    requires Sound(cfg, v) && Enabled(v, l) && c in Next(cfg, v, l).calls
    requires Next(cfg, v, l).calls[c].phase.Finished? && Project(Next(cfg, v, l).log, c) == []
    ensures c in v.calls && v.calls[c].grant == Next(cfg, v, l).calls[c].grant && Project(v.log, c) == []
    ensures || v.calls[c].phase.Finished?
            || (l.Step? && l.c == c && v.calls[c].phase == ActiveOk && v.calls[c].grant.generation.Some?
                && v.calls[c].grant.surfaceId !in v.live)
  {
    CallBefore(cfg, v, l, c);
    ProjectAfter(cfg, v, l, c);
    if !v.calls[c].phase.Finished? {
      SilentReturn(cfg, v.calls[c], See(v, v.calls[c]), l.input);
    }
  }

  lemma SilentInRun(cfg: Config, worlds: seq<World>, labels: seq<Label>, n: nat, c: CallId)
    requires IsRun(cfg, worlds, labels) && n < |worlds|
    requires c in worlds[n].calls && worlds[n].calls[c].phase.Finished? && Project(worlds[n].log, c) == []
    ensures n > 0 && c in worlds[n - 1].calls && worlds[n - 1].calls[c].grant == worlds[n].calls[c].grant
            && Project(worlds[n - 1].log, c) == []
    ensures || worlds[n - 1].calls[c].phase.Finished?
            || (labels[n - 1].Step? && labels[n - 1].c == c && worlds[n - 1].calls[c].phase == ActiveOk
                && worlds[n].calls[c].grant.generation.Some?
                && worlds[n].calls[c].grant.surfaceId !in worlds[n - 1].live)
  {
    assert n > 0;
    RunsAreSound(cfg, worlds, labels, n - 1);
    assert StepAt(cfg, worlds, labels, n - 1);
    SilentInStep(cfg, worlds[n - 1], labels[n - 1], c);
  }

  /** A returned call that left nothing in the log returned when it read the generation and its surface, which it
      had seen alive under the same lock, was gone. */
  lemma {:induction false} SilentCallLostItsSurface(
    cfg: Config, worlds: seq<World>, labels: seq<Label>, n: nat, c: CallId)
    returns (k: nat)
    requires IsRun(cfg, worlds, labels) && n < |worlds|
    requires c in worlds[n].calls && worlds[n].calls[c].phase.Finished? && Project(worlds[n].log, c) == []
    ensures k < n && labels[k].Step? && labels[k].c == c && c in worlds[k].calls && worlds[k].calls[c].phase == ActiveOk
    ensures worlds[n].calls[c].grant.generation.Some? && worlds[n].calls[c].grant.surfaceId !in worlds[k].live
  {
    SilentInRun(cfg, worlds, labels, n, c);
    if worlds[n - 1].calls[c].phase.Finished? {
      k := SilentCallLostItsSurface(cfg, worlds, labels, n - 1, c);
    } else {
      k := n - 1;
    }
  }

  // ---------------------------------------------------------------- no active profile

  /** Between two points of a run nothing declares an active profile. */
  ghost predicate NoDeclaration(labels: seq<Label>, a: nat, b: nat)
    requires a <= b <= |labels|
  {
    forall k :: a <= k < b ==> !(labels[k].SetActive? && labels[k].profile.Some?)
  }

  lemma OnlyDeclarationsActivate(cfg: Config, w: World, l: Label)
    requires Enabled(w, l) && w.active == None && !(l.SetActive? && l.profile.Some?)
    ensures Next(cfg, w, l).active == None
  {
    match l
    case Step(c, input) => ApplyLogs(w, c, Local(cfg, w.calls[c], See(w, w.calls[c]), input));
    case NavigationStarting(_, Allow) =>
    case NavigationStarting(_, Deny(_)) =>
    case _ =>
  }

  lemma {:induction false} StaysCleared(cfg: Config, worlds: seq<World>, labels: seq<Label>, a: nat, b: nat)
    requires IsRun(cfg, worlds, labels) && a <= b < |worlds|
    requires worlds[a].active == None && NoDeclaration(labels, a, b)
    ensures worlds[b].active == None
    decreases b - a
  {
    if a < b {
      StaysCleared(cfg, worlds, labels, a, b - 1);
      assert StepAt(cfg, worlds, labels, b - 1);
      OnlyDeclarationsActivate(cfg, worlds[b - 1], labels[b - 1]);
    }
  }

  lemma ClearingClears(cfg: Config, w: World, l: Label)
    requires Enabled(w, l) && (l == TakeAll || l == SetActive(None))
    ensures Next(cfg, w, l).active == None
  {}

  lemma NoCheckPassesWithNoneActive(cfg: Config, w: World, c: CallId, input: Input)
    requires Enabled(w, Step(c, input)) && w.active == None && w.calls[c].phase == BindingOk
    ensures var v := Next(cfg, w, Step(c, input));
            c in v.calls && v.calls[c].phase == Finished(Refused(ProfileNotFound))
  {}

  /** After a `take_all` or a clear, until the next declaration, a call that reaches the active-profile check
      is refused there. */
  lemma NoCheckPassesWhileCleared(cfg: Config, worlds: seq<World>, labels: seq<Label>, a: nat, k: nat, c: CallId)
    requires IsRun(cfg, worlds, labels) && a < k < |labels|
    requires (labels[a] == TakeAll || labels[a] == SetActive(None)) && NoDeclaration(labels, a, k)
    requires labels[k].Step? && labels[k].c == c && c in worlds[k].calls && worlds[k].calls[c].phase == BindingOk
    ensures c in worlds[k + 1].calls && worlds[k + 1].calls[c].phase == Finished(Refused(ProfileNotFound))
  {
    assert StepAt(cfg, worlds, labels, k);
    NoneActiveWhileCleared(cfg, worlds, labels, a, k);
    NoCheckPassesWithNoneActive(cfg, worlds[k], c, labels[k].input);
  }

  /** So an effect in that time is by a call that had passed the check before the clearing. */
  lemma EffectsWhileClearedWereCheckedBefore(
    cfg: Config, worlds: seq<World>, labels: seq<Label>, a: nat, k: nat, c: CallId)
    returns (i: nat)
    requires IsRun(cfg, worlds, labels) && a < k < |labels|
    requires (labels[a] == TakeAll || labels[a] == SetActive(None)) && NoDeclaration(labels, a, k)
    requires PerformsAt(cfg, worlds, labels, k, c)
    ensures c in worlds[k].calls && i <= a
            && CheckedAt(worlds, labels, i, k, c, worlds[k].calls[c].grant, ProfileActive)
  {
    i := EffectsWereChecked(cfg, worlds, labels, k, c, ProfileActive);
    if i > a {
      NoneActiveWhileCleared(cfg, worlds, labels, a, i);
    }
  }

  lemma NoneActiveWhileCleared(cfg: Config, worlds: seq<World>, labels: seq<Label>, a: nat, i: nat)
    requires IsRun(cfg, worlds, labels) && a < i < |labels|
    requires (labels[a] == TakeAll || labels[a] == SetActive(None)) && NoDeclaration(labels, a, i)
    ensures worlds[i].active == None
  {
    assert StepAt(cfg, worlds, labels, a);
    ClearingClears(cfg, worlds[a], labels[a]);
    StaysCleared(cfg, worlds, labels, a + 1, i);
  }

  // ---------------------------------------------------------------- generations

  predicate IsAllowedStart(l: Label, s: string) {
    l.NavigationStarting? && l.s == s && l.decision == NavigationPolicy.Allow
  }

  /** The allowed navigation starts of `s` among the steps from `a` to `b`. */
  function AllowedStarts(labels: seq<Label>, s: string, a: nat, b: nat): nat
    requires a <= b <= |labels|
    decreases b - a
  {
    if a == b then 0 else AllowedStarts(labels, s, a, b - 1) + if IsAllowedStart(labels[b - 1], s) then 1 else 0
  }

  lemma GenerationStep(cfg: Config, w: World, l: Label, s: string)
    requires Enabled(w, l) && s in w.navigation
    ensures var v := Next(cfg, w, l);
            && s in v.navigation
            && v.navigation[s].generation ==
               if IsAllowedStart(l, s) then Increment(w.navigation[s].generation) else w.navigation[s].generation
  {
    match l
    case Step(c, input) =>
      var m := Local(cfg, w.calls[c], See(w, w.calls[c]), input);
      var u := Advance(w, c, m);
      if m.op != ArmWaiter {
        OperateKeepsChannels(u, c, m.op);
      } else if u.calls[c].grant.surfaceId in u.navigation {
        ArmChannels(u, c);
      }
    case NavigationStarting(_, Allow) =>
    case NavigationStarting(_, Deny(_)) =>
    case _ =>
  }

  lemma {:induction false} GenerationsAreSmall(cfg: Config, worlds: seq<World>, labels: seq<Label>, n: nat, s: string)
    requires IsRun(cfg, worlds, labels) && n < |worlds| && s in worlds[n].navigation
    ensures worlds[n].navigation[s].generation < GENERATIONS
  {
    if n > 0 {
      var v, l := worlds[n - 1], labels[n - 1];
      assert StepAt(cfg, worlds, labels, n - 1);
      if s in v.navigation {
        GenerationsAreSmall(cfg, worlds, labels, n - 1, s);
        GenerationStep(cfg, v, l, s);
      } else {
        NewSurfacesStartAtZero(cfg, v, l, s);
      }
    }
  }

  lemma StepsAddNoSurface(cfg: Config, w: World, c: CallId, input: Input)
    requires Enabled(w, Step(c, input))
    ensures Next(cfg, w, Step(c, input)).navigation.Keys == w.navigation.Keys
  {
    var m := Local(cfg, w.calls[c], See(w, w.calls[c]), input);
    var u := Advance(w, c, m);
    if m.op != ArmWaiter {
      OperateKeepsChannels(u, c, m.op);
    } else if u.calls[c].grant.surfaceId in u.navigation {
      ArmChannels(u, c);
    }
  }

  lemma OnlyCreationAddsSurfaces(v: World, l: Label, s: string)
    requires !l.Step? && Enabled(v, l) && s !in v.navigation && s in Environment(v, l).navigation
    ensures l == CreateSurface(s) && Environment(v, l).navigation[s].generation == 0
  {
    match l
    case NavigationStarting(_, Allow) =>
    case NavigationStarting(_, Deny(_)) =>
    case _ =>
  }

  lemma NewSurfacesStartAtZero(cfg: Config, v: World, l: Label, s: string)
    requires Enabled(v, l) && s !in v.navigation && s in Next(cfg, v, l).navigation
    ensures l == CreateSurface(s) && Next(cfg, v, l).navigation[s].generation == 0
  {
    if l.Step? {
      StepsAddNoSurface(cfg, v, l.c, l.input);
    } else {
      OnlyCreationAddsSurfaces(v, l, s);
    }
  }

  /** `n` times `fetch_add(1)` on an `AtomicU64` that holds `x`. */
  function FetchAdd(x: nat, n: nat): nat {
    if n == 0 then x else Increment(FetchAdd(x, n - 1))
  }

  lemma {:induction false} FetchAddIsModular(x: nat, n: nat)
    requires x < GENERATIONS
    ensures FetchAdd(x, n) == (x + n) % GENERATIONS
  {
    if n > 0 {
      FetchAddIsModular(x, n - 1);
      IncrementIsModular(x + n - 1);
    }
  }

  lemma IncrementIsModular(x: nat)
    ensures Increment(x % GENERATIONS) == (x + 1) % GENERATIONS
  {}

  lemma FetchAddReturnsOnlyAfterAll(x: nat, n: nat)
    requires x < GENERATIONS && n < GENERATIONS
    ensures FetchAdd(x, n) == x <==> n == 0
  {
    FetchAddIsModular(x, n);
  }

  /** The generation counts allowed navigation starts, modulo 2^64; denied starts and completions leave it alone. */
  lemma {:induction false} GenerationCountsStarts(
    cfg: Config, worlds: seq<World>, labels: seq<Label>, s: string, a: nat, b: nat)
    requires IsRun(cfg, worlds, labels) && a <= b < |worlds| && s in worlds[a].navigation
    ensures s in worlds[b].navigation
    ensures worlds[b].navigation[s].generation
            == FetchAdd(worlds[a].navigation[s].generation, AllowedStarts(labels, s, a, b))
    decreases b - a
  {
    if a < b {
      GenerationCountsStarts(cfg, worlds, labels, s, a, b - 1);
      assert StepAt(cfg, worlds, labels, b - 1);
      GenerationStep(cfg, worlds[b - 1], labels[b - 1], s);
    }
  }

  /** When fewer than 2^64 navigations started in between, a claim of the generation read at `a` passes the
      check at `k` exactly when no allowed navigation started on the surface from `a` to `k`. */
  lemma PassingMeansNoNavigation(cfg: Config, worlds: seq<World>, labels: seq<Label>, a: nat, k: nat, c: CallId)
    requires IsRun(cfg, worlds, labels) && a <= k < |labels|
    requires labels[k].Step? && labels[k].c == c && c in worlds[k].calls && worlds[k].calls[c].phase == ActiveOk
    requires worlds[k].calls[c].grant.surfaceId in worlds[a].navigation
             && worlds[k].calls[c].grant.surfaceId in worlds[k].live
    requires worlds[k].calls[c].grant.generation
             == Some(worlds[a].navigation[worlds[k].calls[c].grant.surfaceId].generation)
    requires AllowedStarts(labels, worlds[k].calls[c].grant.surfaceId, a, k) < GENERATIONS
    ensures c in worlds[k + 1].calls
    ensures worlds[k + 1].calls[c].phase == GenerationOk
            <==> AllowedStarts(labels, worlds[k].calls[c].grant.surfaceId, a, k) == 0
  {
    var s := worlds[k].calls[c].grant.surfaceId;
    assert StepAt(cfg, worlds, labels, k);
    GenerationUnchangedIff(cfg, worlds, labels, s, a, k);
    GenerationCheckStep(cfg, worlds[k], c, labels[k].input);
  }

  lemma GenerationUnchangedIff(cfg: Config, worlds: seq<World>, labels: seq<Label>, s: string, a: nat, b: nat)
    requires IsRun(cfg, worlds, labels) && a <= b < |worlds| && s in worlds[a].navigation
    requires AllowedStarts(labels, s, a, b) < GENERATIONS
    ensures s in worlds[b].navigation
    ensures worlds[b].navigation[s].generation == worlds[a].navigation[s].generation
            <==> AllowedStarts(labels, s, a, b) == 0
  {
    GenerationsAreSmall(cfg, worlds, labels, a, s);
    GenerationCountsStarts(cfg, worlds, labels, s, a, b);
    FetchAddReturnsOnlyAfterAll(worlds[a].navigation[s].generation, AllowedStarts(labels, s, a, b));
  }

  lemma GenerationCheckStep(cfg: Config, w: World, c: CallId, input: Input)
    requires Enabled(w, Step(c, input)) && w.calls[c].phase == ActiveOk
    requires w.calls[c].grant.generation.Some? && w.calls[c].grant.surfaceId in w.live
             && w.calls[c].grant.surfaceId in w.navigation
    ensures var v := Next(cfg, w, Step(c, input));
            c in v.calls && (v.calls[c].phase == GenerationOk
                             <==> w.navigation[w.calls[c].grant.surfaceId].generation
                                  == w.calls[c].grant.generation.value)
  {}
}
