/** Why calls return what they return and perform what they perform, over whole runs: each answer of the protocol has
    its reason in the terms of `RedeemSpec`. */
module RedeemReplies {
  import opened Wrappers
  import opened GrantParameters
  import opened ProfileKeys
  import opened RedeemProtocol
  import opened RedeemSafety
  import opened RedeemRuns
  import opened RedeemSpec
  import GrantPayload

  // ---------------------------------------------------------------- returning from each phase

  predicate Returns(m: Move, r: Reply) {
    m.phase == Finished(r)
  }

  predicate EarlyCheck(p: Phase) {
    p.Fresh? || p.SignatureOk? || p.TimeOk? || p.Marked? || p.Queued? || p.GenerationOk? || p.Vetted?
  }

  predicate LateCheck(p: Phase) {
    p.Inside? || p.SurfaceOk? || p.BindingOk? || p.ActiveOk?
  }

  lemma EarlyReturnsIff(cfg: Config, w: World, call: Call, input: Input, r: Reply)
    requires CanMove(call, See(w, call), input) && EarlyCheck(call.phase)
    ensures Returns(Local(cfg, call, See(w, call), input), r) <==> Because(cfg, w, call, input, r)
  {}

  lemma LateReturnsIff(cfg: Config, w: World, call: Call, input: Input, r: Reply)
    requires CanMove(call, See(w, call), input) && LateCheck(call.phase) && w.live <= w.navigation.Keys
    ensures Returns(Local(cfg, call, See(w, call), input), r) <==> Because(cfg, w, call, input, r)
  {}

  lemma UnknownIsNotEnabled(cfg: Config, call: Call)
    requires !IsCapability(call.grant.capability)
    ensures Vet(cfg, call) == Return(NotYetEnabled)
  {
    CapabilityIsKnown(call.grant.capability);
  }

  lemma OthersParametersAreRequired(cfg: Config, call: Call)
    requires IsCapability(call.grant.capability) && !HasParameters(call)
    ensures Vet(cfg, call) == Return(Refused(ParametersRequired))
  {
    CapabilityIsKnown(call.grant.capability);
    if call.params.Some? {
      CapabilitiesAgree(call.params.value);
    }
  }

  lemma OwnParametersAreVetted(cfg: Config, call: Call)
    requires HasParameters(call)
    ensures Vet(cfg, call) == VetOwn(cfg, call, call.params.value)
  {
    assert IsCapability(call.grant.capability);
    CapabilityIsKnown(call.grant.capability);
    CapabilitiesAgree(call.params.value);
  }

  /** The checks on parameters that fit the capability. */
  ghost function VetOwn(cfg: Config, call: Call, p: Params): Move
    requires call.params == Some(p)
  {
    if p.Screenshot? && p.fullPage then Return(Refused(FullPageNotYetSupported))
    else if !HashMatches(cfg, call) then Reject(GrantInvalid, ReleaseLock)
    else if !SelectorsUsable(p) then Return(Refused(NodeRefOnlyNotSupported))
    else Go(Vetted(EffectOf(call.grant.surfaceId, p)))
  }

  /** What the parameters' own checks answer, if they do not pass. */
  ghost function OwnReply(cfg: Config, g: Grant, p: Params): Option<Reply> {
    if FullPage(p) then Some(Refused(FullPageNotYetSupported))
    else if !Carries(cfg, g, p) then Some(Refused(GrantInvalid))
    else if !NamesElements(p) then Some(Refused(NodeRefOnlyNotSupported))
    else None
  }

  lemma OwnReplyIsReturned(cfg: Config, call: Call, p: Params, r: Reply)
    requires call.params == Some(p)
    ensures Returns(VetOwn(cfg, call, p), r) <==> OwnReply(cfg, call.grant, p) == Some(r)
  {
    UsableNamesElements(p);
  }

  lemma FullPageHasReason(cfg: Config, w: World, call: Call, input: Input)
    requires call.phase.Admitted? && HasParameters(call)
    ensures RefusedBecause(cfg, w, call, input, FullPageNotYetSupported) <==> FullPage(call.params.value)
  {}

  lemma MismatchHasReason(cfg: Config, w: World, call: Call, input: Input)
    requires call.phase.Admitted? && HasParameters(call)
    ensures RefusedBecause(cfg, w, call, input, GrantInvalid)
            <==> !FullPage(call.params.value) && !Carries(cfg, call.grant, call.params.value)
  {}

  lemma NodeRefIsReason(cfg: Config, w: World, call: Call, input: Input)
    requires call.phase.Admitted? && HasParameters(call) && !FullPage(call.params.value)
    requires Carries(cfg, call.grant, call.params.value) && !NamesElements(call.params.value)
    ensures RefusedBecause(cfg, w, call, input, NodeRefOnlyNotSupported)
  {}

  lemma ReasonIsNodeRef(cfg: Config, w: World, call: Call, input: Input)
    requires call.phase.Admitted? && HasParameters(call)
    requires RefusedBecause(cfg, w, call, input, NodeRefOnlyNotSupported)
    ensures !FullPage(call.params.value) && Carries(cfg, call.grant, call.params.value)
    ensures !NamesElements(call.params.value)
  {}

  lemma NodeRefHasReason(cfg: Config, w: World, call: Call, input: Input)
    requires call.phase.Admitted? && HasParameters(call)
    ensures RefusedBecause(cfg, w, call, input, NodeRefOnlyNotSupported)
            <==> OwnReply(cfg, call.grant, call.params.value) == Some(Refused(NodeRefOnlyNotSupported))
  {
    if RefusedBecause(cfg, w, call, input, NodeRefOnlyNotSupported) {
      ReasonIsNodeRef(cfg, w, call, input);
    } else if OwnReply(cfg, call.grant, call.params.value) == Some(Refused(NodeRefOnlyNotSupported)) {
      NodeRefIsReason(cfg, w, call, input);
    }
  }

  lemma OthersHaveNoReason(cfg: Config, w: World, call: Call, input: Input, e: ExecutionError)
    requires call.phase.Admitted? && HasParameters(call)
    ensures !e.GrantInvalid? && !e.FullPageNotYetSupported? && !e.NodeRefOnlyNotSupported? ==>
              !RefusedBecause(cfg, w, call, input, e)
  {}

  lemma OwnReplyHasReason(cfg: Config, w: World, call: Call, input: Input, r: Reply)
    requires call.phase.Admitted? && HasParameters(call)
    ensures Because(cfg, w, call, input, r) <==> OwnReply(cfg, call.grant, call.params.value) == Some(r)
  {
    match r
    case NotYetEnabled => assert IsCapability(call.grant.capability);
    case Executed(_) =>
    case Refused(e) =>
      FullPageHasReason(cfg, w, call, input);
      MismatchHasReason(cfg, w, call, input);
      NodeRefHasReason(cfg, w, call, input);
      OthersHaveNoReason(cfg, w, call, input, e);
  }

  lemma OwnReturnsIff(cfg: Config, w: World, call: Call, input: Input, r: Reply)
    requires call.phase.Admitted? && HasParameters(call)
    ensures Returns(VetOwn(cfg, call, call.params.value), r) <==> Because(cfg, w, call, input, r)
  {
    OwnReplyIsReturned(cfg, call, call.params.value, r);
    OwnReplyHasReason(cfg, w, call, input, r);
  }

  lemma VetReturnsIff(cfg: Config, w: World, call: Call, input: Input, r: Reply)
    requires call.phase.Admitted?
    ensures Returns(Vet(cfg, call), r) <==> Because(cfg, w, call, input, r)
  {
    if HasParameters(call) {
      OwnParametersAreVetted(cfg, call);
      OwnReturnsIff(cfg, w, call, input, r);
    } else if IsCapability(call.grant.capability) {
      OthersParametersAreRequired(cfg, call);
    } else {
      UnknownIsNotEnabled(cfg, call);
    }
  }

  lemma WorkReturnsIff(cfg: Config, w: World, call: Call, input: Input, r: Reply)
    requires CanMove(call, See(w, call), input) && BeforeEffect(call.phase)
    requires (call.phase.Armed? ==> call.phase.plan.NavigateTo?) && (call.phase.Rooted? ==> call.phase.plan.Submit?)
    ensures Returns(Local(cfg, call, See(w, call), input), r) <==> Because(cfg, w, call, input, r)
  {}

  lemma NavigationReturnsIff(cfg: Config, w: World, call: Call, input: Input, r: Reply)
    requires CanMove(call, See(w, call), input) && call.phase.Issued?
    ensures Returns(Local(cfg, call, See(w, call), input), r) <==> Because(cfg, w, call, input, r)
  {}

  lemma CaptureReturnsIff(cfg: Config, w: World, call: Call, input: Input, r: Reply)
    requires CanMove(call, See(w, call), input) && call.phase.Capturing?
    ensures Returns(Local(cfg, call, See(w, call), input), r) <==> Because(cfg, w, call, input, r)
  {}

  lemma OperationReturnsIff(cfg: Config, w: World, call: Call, input: Input, r: Reply)
    requires CanMove(call, See(w, call), input) && call.phase.Submitted?
    requires call.params.Some? && KindFor(KindOf(call.phase.plan), call.params.value)
    ensures Returns(Local(cfg, call, See(w, call), input), r) <==> Because(cfg, w, call, input, r)
  {}

  /** Given a consistent world, a call returns a reply in its step exactly for one of that reply's reasons. */
  lemma ReturnsIff(cfg: Config, w: World, c: CallId, input: Input, r: Reply)
    requires Sound(cfg, w) && Enabled(w, Step(c, input))
    ensures Returns(MoveOf(cfg, w, c, input), r) <==> Because(cfg, w, w.calls[c], input, r)
  {
    var call := w.calls[c];
    assert Explains(cfg, call, Project(w.log, c));
    if call.phase.Admitted? {
      VetReturnsIff(cfg, w, call, input, r);
    } else if EarlyCheck(call.phase) {
      EarlyReturnsIff(cfg, w, call, input, r);
    } else if LateCheck(call.phase) {
      LateReturnsIff(cfg, w, call, input, r);
    } else if BeforeEffect(call.phase) {
      WorkReturnsIff(cfg, w, call, input, r);
    } else {
      WaitReturnsIff(cfg, w, call, input, r);
    }
  }

  lemma WaitReturnsIff(cfg: Config, w: World, call: Call, input: Input, r: Reply)
    requires CanMove(call, See(w, call), input) && Waits(call.phase)
    requires Planned(cfg, call, call.phase.plan)
    ensures Returns(Local(cfg, call, See(w, call), input), r) <==> Because(cfg, w, call, input, r)
  {
    match call.phase
    case Issued(_) => NavigationReturnsIff(cfg, w, call, input, r);
    case Capturing(_) => CaptureReturnsIff(cfg, w, call, input, r);
    case Submitted(_) =>
      EffectIsAsked(call.params.value, call.grant.surfaceId);
      OperationReturnsIff(cfg, w, call, input, r);
  }

  ghost function MoveOf(cfg: Config, w: World, c: CallId, input: Input): Move
    requires Enabled(w, Step(c, input))
  {
    Local(cfg, w.calls[c], See(w, w.calls[c]), input)
  }

  // ---------------------------------------------------------------- what each step writes

  lemma CheckWrites(cfg: Config, call: Call, seen: Seen, input: Input)
    requires CanMove(call, seen, input) && (EarlyCheck(call.phase) || LateCheck(call.phase))
    ensures var m := Local(cfg, call, seen, input);
            Writes(call.phase, m.phase, m.acts)
  {}

  lemma VetWrites(cfg: Config, call: Call)
    ensures Writes(Admitted, Vet(cfg, call).phase, Vet(cfg, call).acts)
  {}

  lemma WorkWrites(cfg: Config, call: Call, seen: Seen, input: Input)
    requires CanMove(call, seen, input) && BeforeEffect(call.phase)
    requires (call.phase.Armed? ==> call.phase.plan.NavigateTo?) && (call.phase.Rooted? ==> call.phase.plan.Submit?)
    ensures var m := Local(cfg, call, seen, input);
            Writes(call.phase, m.phase, m.acts)
  {}

  lemma WaitWrites(cfg: Config, call: Call, seen: Seen, input: Input)
    requires CanMove(call, seen, input) && Waits(call.phase)
    ensures var m := Local(cfg, call, seen, input);
            Writes(call.phase, m.phase, m.acts)
  {}

  lemma MoveWrites(cfg: Config, w: World, c: CallId, input: Input)
    requires Sound(cfg, w) && Enabled(w, Step(c, input))
    ensures var m := MoveOf(cfg, w, c, input);
            Writes(w.calls[c].phase, m.phase, m.acts)
  {
    var call := w.calls[c];
    assert Explains(cfg, call, Project(w.log, c));
    if call.phase.Admitted? {
      VetWrites(cfg, call);
    } else if BeforeEffect(call.phase) {
      WorkWrites(cfg, call, See(w, call), input);
    } else if Waits(call.phase) {
      WaitWrites(cfg, call, See(w, call), input);
    } else {
      CheckWrites(cfg, call, See(w, call), input);
    }
  }

  // ---------------------------------------------------------------- replies over runs

  /** Step `k` is one of call `c`. */
  predicate StepsAt(worlds: seq<World>, labels: seq<Label>, k: nat, c: CallId) {
    k < |labels| && |worlds| == |labels| + 1 && labels[k].Step? && labels[k].c == c && c in worlds[k].calls
  }

  /** A step of a call ends in a reply exactly for one of the reply's reasons, and writes what goes with where it
      led. */
  lemma StepHasReason(cfg: Config, worlds: seq<World>, labels: seq<Label>, k: nat, c: CallId, r: Reply)
    requires IsRun(cfg, worlds, labels) && StepsAt(worlds, labels, k, c)
    ensures c in worlds[k + 1].calls && worlds[k + 1].calls[c].grant == worlds[k].calls[c].grant
    ensures worlds[k + 1].calls[c].phase == Finished(r)
            <==> Because(cfg, worlds[k], worlds[k].calls[c], labels[k].input, r)
    ensures exists acts ::
              && Writes(worlds[k].calls[c].phase, worlds[k + 1].calls[c].phase, acts)
              && worlds[k + 1].log == worlds[k].log + Tag(c, acts)
  {
    RunsAreSound(cfg, worlds, labels, k);
    assert StepAt(cfg, worlds, labels, k);
    var w, input := worlds[k], labels[k].input;
    var m := MoveOf(cfg, w, c, input);
    ReturnsIff(cfg, w, c, input, r);
    MoveWrites(cfg, w, c, input);
    ApplyFrame(w, c, m);
    ApplyLogs(w, c, m);
  }

  lemma ReturnedBefore(cfg: Config, worlds: seq<World>, labels: seq<Label>, n: nat, c: CallId)
    requires IsRun(cfg, worlds, labels) && n < |worlds| && c in worlds[n].calls && worlds[n].calls[c].phase.Finished?
    ensures n > 0 && c in worlds[n - 1].calls && worlds[n - 1].calls[c].grant == worlds[n].calls[c].grant
    ensures worlds[n - 1].calls[c].phase == worlds[n].calls[c].phase || StepsAt(worlds, labels, n - 1, c)
  {
    assert n > 0;
    assert StepAt(cfg, worlds, labels, n - 1);
    CallBefore(cfg, worlds[n - 1], labels[n - 1], c);
  }

  /** Every returned call returned its reply in a step of its own, for one of that reply's reasons. */
  lemma {:induction false} RepliesHaveReasons(cfg: Config, worlds: seq<World>, labels: seq<Label>, n: nat, c: CallId)
    returns (k: nat)
    requires IsRun(cfg, worlds, labels) && n < |worlds| && c in worlds[n].calls && worlds[n].calls[c].phase.Finished?
    ensures k < n && StepsAt(worlds, labels, k, c) && worlds[k].calls[c].grant == worlds[n].calls[c].grant
    ensures Because(cfg, worlds[k], worlds[k].calls[c], labels[k].input, worlds[n].calls[c].phase.reply)
    ensures forall j :: k < j <= n ==> c in worlds[j].calls && worlds[j].calls[c].phase == worlds[n].calls[c].phase
  {
    ReturnedBefore(cfg, worlds, labels, n, c);
    if worlds[n - 1].calls[c].phase == worlds[n].calls[c].phase {
      k := RepliesHaveReasons(cfg, worlds, labels, n - 1, c);
    } else {
      k := n - 1;
      StepHasReason(cfg, worlds, labels, k, c, worlds[n].calls[c].phase.reply);
    }
  }

  /** How a UI operation or a capture ends, from what ended the wait for it. */
  function Told(call: Call, input: Input): Reply {
    match input.wait
    case UiaDone(k) =>
      if call.params.Some? && KindFor(k, call.params.value) then Executed(k) else Refused(InternalError)
    case UiaError => Refused(UiaFailed)
    case CaptureDone => Executed(ScreenshotKind)
    case CaptureError => Refused(ScreenshotFailed)
    case Elapsed => Refused(Timeout)
    case _ => Refused(InternalError)
  }

  lemma ToldIsTheReason(cfg: Config, w: World, call: Call, input: Input)
    requires CanMove(call, See(w, call), input) && (call.phase.Submitted? || call.phase.Capturing?)
    ensures Because(cfg, w, call, input, Told(call, input))
  {}

  lemma EndIsAudited(p: Phase, r: Reply, acts: seq<Act>)
    requires (p.Submitted? || p.Capturing?) && Writes(p, Finished(r), acts)
    ensures acts == [Audited(if r.Executed? then Succeeded else Failed)]
  {}

  /** In every run the step that ends the wait of a UI operation or a capture returns what the wait told, and audits
      Succeeded exactly for a result. */
  lemma WaitsAnswerAsTold(cfg: Config, worlds: seq<World>, labels: seq<Label>, k: nat, c: CallId)
    requires IsRun(cfg, worlds, labels) && StepsAt(worlds, labels, k, c)
    requires worlds[k].calls[c].phase.Submitted? || worlds[k].calls[c].phase.Capturing?
    ensures var r := Told(worlds[k].calls[c], labels[k].input);
            && c in worlds[k + 1].calls && worlds[k + 1].calls[c].phase == Finished(r)
            && worlds[k + 1].log == worlds[k].log + Tag(c, [Audited(if r.Executed? then Succeeded else Failed)])
  {
    assert StepAt(cfg, worlds, labels, k);
    var call := worlds[k].calls[c];
    ToldIsTheReason(cfg, worlds[k], call, labels[k].input);
    StepHasReason(cfg, worlds, labels, k, c, Told(call, labels[k].input));
    var acts :| Writes(call.phase, worlds[k + 1].calls[c].phase, acts)
                && worlds[k + 1].log == worlds[k].log + Tag(c, acts);
    EndIsAudited(call.phase, Told(call, labels[k].input), acts);
  }

  // ---------------------------------------------------------------- the time

  /** At the expiry check a call goes on exactly within its grant's times, bounds parsed, issue included and expiry not;
      with a timestamp that cannot be parsed its grant is invalid, and otherwise expired. */
  lemma ExpiryIsChecked(cfg: Config, worlds: seq<World>, labels: seq<Label>, k: nat, c: CallId)
    requires IsRun(cfg, worlds, labels) && StepsAt(worlds, labels, k, c) && worlds[k].calls[c].phase == SignatureOk
    ensures c in worlds[k + 1].calls
    ensures var (issued, expires) := (cfg.instant(worlds[k].calls[c].grant.issuedAt),
                                      cfg.instant(worlds[k].calls[c].grant.expiresAt));
            var p := worlds[k + 1].calls[c].phase;
            if issued.None? || expires.None? then p == Finished(Refused(GrantInvalid))
            else if issued.value <= labels[k].input.now < expires.value then p == TimeOk
            else p == Finished(Refused(GrantExpired))
  {
    assert StepAt(cfg, worlds, labels, k);
    ApplyFrame(worlds[k], c, MoveOf(cfg, worlds[k], c, labels[k].input));
  }

  predicate PastTime(p: Phase) {
    !p.Fresh? && !p.SignatureOk? && !p.Finished?
  }

  lemma PassingTimeIsCurrent(cfg: Config, call: Call, seen: Seen, input: Input)
    requires CanMove(call, seen, input) && PastTime(Local(cfg, call, seen, input).phase) && !PastTime(call.phase)
    ensures call.phase == SignatureOk && Current(cfg, call.grant, input.now)
  {}

  lemma TimeInStep(cfg: Config, worlds: seq<World>, labels: seq<Label>, n: nat, c: CallId)
    requires IsRun(cfg, worlds, labels) && n < |worlds| && c in worlds[n].calls && PastTime(worlds[n].calls[c].phase)
    ensures n > 0 && c in worlds[n - 1].calls && worlds[n - 1].calls[c].grant == worlds[n].calls[c].grant
    ensures || PastTime(worlds[n - 1].calls[c].phase)
            || (StepsAt(worlds, labels, n - 1, c) && worlds[n - 1].calls[c].phase == SignatureOk
                && Current(cfg, worlds[n].calls[c].grant, labels[n - 1].input.now))
  {
    assert n > 0;
    var v, l := worlds[n - 1], labels[n - 1];
    assert StepAt(cfg, worlds, labels, n - 1);
    CallBefore(cfg, v, l, c);
    if !PastTime(v.calls[c].phase) {
      PassingTimeIsCurrent(cfg, v.calls[c], See(v, v.calls[c]), l.input);
    }
  }

  /** A running call past the expiry check made it in an earlier step of its own, at a time between its grant's. */
  lemma {:induction false} TimeWasChecked(cfg: Config, worlds: seq<World>, labels: seq<Label>, n: nat, c: CallId)
    returns (k: nat)
    requires IsRun(cfg, worlds, labels) && n < |worlds| && c in worlds[n].calls && PastTime(worlds[n].calls[c].phase)
    ensures k < n && StepsAt(worlds, labels, k, c) && worlds[k].calls[c].phase == SignatureOk
    ensures Current(cfg, worlds[n].calls[c].grant, labels[k].input.now)
  {
    TimeInStep(cfg, worlds, labels, n, c);
    if PastTime(worlds[n - 1].calls[c].phase) {
      k := TimeWasChecked(cfg, worlds, labels, n - 1, c);
    } else {
      k := n - 1;
    }
  }

  // ---------------------------------------------------------------- what is performed

  lemma LogOfStep(cfg: Config, w: World, l: Label)
    requires Enabled(w, l)
    ensures Next(cfg, w, l).log == w.log + if l.Step? then Tag(l.c, MoveOf(cfg, w, l.c, l.input).acts) else []
  {
    if l.Step? {
      ApplyLogs(w, l.c, MoveOf(cfg, w, l.c, l.input));
    } else {
      EnvironmentFrame(w, l);
    }
  }

  lemma EffectOfStep(cfg: Config, w: World, l: Label, i: nat)
    requires Enabled(w, l) && |w.log| <= i < |Next(cfg, w, l).log| && Next(cfg, w, l).log[i].act.Performed?
    ensures l.Step? && l.c == Next(cfg, w, l).log[i].call
    ensures var acts := MoveOf(cfg, w, l.c, l.input).acts;
            |acts| > 0 && acts[0] == Next(cfg, w, l).log[i].act && i == |w.log|
  {
    LogOfStep(cfg, w, l);
    EffectsByPhase(cfg, w.calls[l.c], See(w, w.calls[l.c]), l.input);
  }

  /** Every effect in the log was performed in one step of its call. */
  lemma {:induction false} PerformedInAStep(cfg: Config, worlds: seq<World>, labels: seq<Label>, n: nat, i: nat)
    returns (k: nat)
    requires IsRun(cfg, worlds, labels) && n < |worlds| && i < |worlds[n].log| && worlds[n].log[i].act.Performed?
    ensures k < n && StepsAt(worlds, labels, k, worlds[n].log[i].call) && i == |worlds[k].log|
    ensures PerformsAt(cfg, worlds, labels, k, worlds[n].log[i].call)
  {
    assert n > 0;
    assert StepAt(cfg, worlds, labels, n - 1);
    LogOfStep(cfg, worlds[n - 1], labels[n - 1]);
    if i < |worlds[n - 1].log| {
      assert worlds[n].log[i] == worlds[n - 1].log[i];
      k := PerformedInAStep(cfg, worlds, labels, n - 1, i);
    } else {
      k := n - 1;
      EffectOfStep(cfg, worlds[n - 1], labels[n - 1], i);
    }
  }

  lemma GrantStaysOnce(cfg: Config, w: World, l: Label, c: CallId)
    requires Enabled(w, l) && c in w.calls
    ensures c in Next(cfg, w, l).calls && Next(cfg, w, l).calls[c].grant == w.calls[c].grant
  {
    if l.Step? {
      ApplyFrame(w, l.c, MoveOf(cfg, w, l.c, l.input));
    } else {
      EnvironmentFrame(w, l);
    }
  }

  lemma {:induction false} GrantStays(
    cfg: Config, worlds: seq<World>, labels: seq<Label>, k: nat, n: nat, c: CallId)
    requires IsRun(cfg, worlds, labels) && k <= n < |worlds| && c in worlds[k].calls
    ensures c in worlds[n].calls && worlds[n].calls[c].grant == worlds[k].calls[c].grant
    decreases n - k
  {
    if k < n {
      GrantStays(cfg, worlds, labels, k, n - 1, c);
      assert StepAt(cfg, worlds, labels, n - 1);
      GrantStaysOnce(cfg, worlds[n - 1], labels[n - 1], c);
    }
  }

  /** Every effect belongs to a call that made its expiry check in an earlier step of its own, at a time between its
      grant's issue and expiry. */
  lemma EffectsWereInTime(cfg: Config, worlds: seq<World>, labels: seq<Label>, n: nat, i: nat) returns (k: nat)
    requires IsRun(cfg, worlds, labels) && n < |worlds| && i < |worlds[n].log| && worlds[n].log[i].act.Performed?
    ensures var c := worlds[n].log[i].call;
            && k < n && StepsAt(worlds, labels, k, c) && worlds[k].calls[c].phase == SignatureOk
            && c in worlds[n].calls && Current(cfg, worlds[n].calls[c].grant, labels[k].input.now)
  {
    var c := worlds[n].log[i].call;
    var j := PerformedInAStep(cfg, worlds, labels, n, i);
    assert StepAt(cfg, worlds, labels, j);
    EffectsByPhase(cfg, worlds[j].calls[c], See(worlds[j], worlds[j].calls[c]), labels[j].input);
    k := TimeWasChecked(cfg, worlds, labels, j, c);
    GrantStays(cfg, worlds, labels, j, n, c);
  }

  // ---------------------------------------------------------------- surfaces and bindings that are gone

  lemma OnlyCreationRevives(cfg: Config, w: World, l: Label, s: string)
    requires Enabled(w, l) && s !in w.live && s in w.navigation
    ensures s !in Next(cfg, w, l).live
  {
    match l
    case Step(c, input) => ApplyLogs(w, c, MoveOf(cfg, w, c, input));
    case NavigationStarting(_, Allow) =>
    case NavigationStarting(_, Deny(_)) =>
    case _ =>
  }

  lemma {:induction false} StaysGone(cfg: Config, worlds: seq<World>, labels: seq<Label>, s: string, a: nat, b: nat)
    requires IsRun(cfg, worlds, labels) && a <= b < |worlds|
    requires s !in worlds[a].live && s in worlds[a].navigation
    ensures s !in worlds[b].live
    decreases b - a
  {
    if a < b {
      StaysGone(cfg, worlds, labels, s, a, b - 1);
      GenerationCountsStarts(cfg, worlds, labels, s, a, b - 1);
      assert StepAt(cfg, worlds, labels, b - 1);
      OnlyCreationRevives(cfg, worlds[b - 1], labels[b - 1], s);
    }
  }

  lemma DestroyingDestroys(cfg: Config, w: World, l: Label, s: string)
    requires Enabled(w, l) && s in w.live && (l == DestroySurface(s) || l == DestroyAll)
    ensures s !in Next(cfg, w, l).live && Next(cfg, w, l).navigation == w.navigation
  {}

  /** Once a surface is destroyed, every later call that looks for it is refused. */
  lemma DestroyedIsNotFound(
    cfg: Config, worlds: seq<World>, labels: seq<Label>, s: string, a: nat, k: nat, c: CallId)
    requires IsRun(cfg, worlds, labels) && a < k && StepsAt(worlds, labels, k, c)
    requires s in worlds[a].live && (labels[a] == DestroySurface(s) || labels[a] == DestroyAll)
    requires worlds[k].calls[c].phase == Inside && worlds[k].calls[c].grant.surfaceId == s
    ensures c in worlds[k + 1].calls && worlds[k + 1].calls[c].phase == Finished(Refused(SurfaceNotFound))
  {
    RunsAreSound(cfg, worlds, labels, a);
    assert StepAt(cfg, worlds, labels, a);
    DestroyingDestroys(cfg, worlds[a], labels[a], s);
    StaysGone(cfg, worlds, labels, s, a + 1, k);
    StepHasReason(cfg, worlds, labels, k, c, Refused(SurfaceNotFound));
  }

  lemma OnlyBindingBinds(cfg: Config, w: World, l: Label, s: string)
    requires Enabled(w, l) && s !in w.bindings && !(l.Bind? && l.s == s)
    ensures s !in Next(cfg, w, l).bindings
  {
    match l
    case Step(c, input) => ApplyLogs(w, c, MoveOf(cfg, w, c, input));
    case NavigationStarting(_, Allow) =>
    case NavigationStarting(_, Deny(_)) =>
    case _ =>
  }

  lemma {:induction false} StaysUnbound(cfg: Config, worlds: seq<World>, labels: seq<Label>, s: string, a: nat, b: nat)
    requires IsRun(cfg, worlds, labels) && a <= b < |worlds| && s !in worlds[a].bindings
    requires forall i :: a <= i < b ==> !(labels[i].Bind? && labels[i].s == s)
    ensures s !in worlds[b].bindings
    decreases b - a
  {
    if a < b {
      StaysUnbound(cfg, worlds, labels, s, a, b - 1);
      assert StepAt(cfg, worlds, labels, b - 1);
      OnlyBindingBinds(cfg, worlds[b - 1], labels[b - 1], s);
    }
  }

  lemma UnbindingUnbinds(cfg: Config, w: World, l: Label, s: string)
    requires Enabled(w, l) && (l == Unbind(s) || l == TakeAll)
    ensures s !in Next(cfg, w, l).bindings
  {}

  /** While a surface is released and not bound again, every call that checks its binding is refused. */
  lemma UnboundIsNotFound(
    cfg: Config, worlds: seq<World>, labels: seq<Label>, s: string, a: nat, k: nat, c: CallId)
    requires IsRun(cfg, worlds, labels) && a < k && StepsAt(worlds, labels, k, c)
    requires labels[a] == Unbind(s) || labels[a] == TakeAll
    requires forall i :: a < i < k ==> !(labels[i].Bind? && labels[i].s == s)
    requires worlds[k].calls[c].phase == SurfaceOk && worlds[k].calls[c].grant.surfaceId == s
    ensures c in worlds[k + 1].calls && worlds[k + 1].calls[c].phase == Finished(Refused(ProfileNotFound))
  {
    assert StepAt(cfg, worlds, labels, a);
    UnbindingUnbinds(cfg, worlds[a], labels[a], s);
    StaysUnbound(cfg, worlds, labels, s, a + 1, k);
    StepHasReason(cfg, worlds, labels, k, c, Refused(ProfileNotFound));
  }
}
