/** What every step of the redeem protocol keeps: single use, one call per surface at a time, a log that
    tells each call's story, and waiters that answer with the first event after they were armed. */
module RedeemSafety {
  import opened Wrappers
  import opened RedeemProtocol
  import opened RedeemSpec

  // ---------------------------------------------------------------- the log of one call

  /** The acts of call `c`, in order. */
  function Project(log: seq<Item>, c: CallId): seq<Act> {
    if |log| == 0 then []
    else
      var last := log[|log| - 1];
      Project(log[..|log| - 1], c) + if last.call == c then [last.act] else []
  }

  lemma {:induction false} ProjectAppend(log: seq<Item>, more: seq<Item>, c: CallId)
    ensures Project(log + more, c) == Project(log, c) + Project(more, c)
  {
    if |more| == 0 {
      assert log + more == log;
    } else {
      var all := log + more;
      assert all[..|all| - 1] == log + more[..|more| - 1];
      ProjectAppend(log, more[..|more| - 1], c);
    }
  }

  lemma {:induction false} ProjectTag(c: CallId, acts: seq<Act>, d: CallId)
    ensures Project(Tag(c, acts), d) == if c == d then acts else []
  {
    if |acts| > 0 {
      var t := Tag(c, acts);
      assert t[..|t| - 1] == Tag(c, acts[..|acts| - 1]);
      ProjectTag(c, acts[..|acts| - 1], d);
      assert acts == acts[..|acts| - 1] + [acts[|acts| - 1]];
    }
  }

  lemma {:induction false} ProjectOfStranger(log: seq<Item>, c: CallId)
    requires forall i :: 0 <= i < |log| ==> log[i].call != c
    ensures Project(log, c) == []
  {
    if |log| > 0 {
      ProjectOfStranger(log[..|log| - 1], c);
    }
  }

  lemma {:induction false} ProjectHasEveryAct(log: seq<Item>, i: nat)
    requires i < |log|
    ensures log[i].act in Project(log, log[i].call)
  {
    if i < |log| - 1 {
      assert log[..|log| - 1][i] == log[i];
      ProjectHasEveryAct(log[..|log| - 1], i);
    }
  }

  /** `plan` is the effect of exactly the parameters whose hash the signed grant carries. */
  ghost predicate Planned(cfg: Config, call: Call, plan: Effect) {
    && SignatureHolds(cfg, call)
    && Fits(cfg, call)
    && plan == EffectOf(call.grant.surfaceId, call.params.value)
  }

  /** The possible logs of a call that has returned `reply`. */
  ghost predicate ExplainsReply(cfg: Config, call: Call, reply: Reply, acts: seq<Act>) {
    match reply
    case NotYetEnabled =>
      acts == [Audited(Redeemed)]
    case Executed(kind) =>
      exists plan :: Planned(cfg, call, plan) && kind == KindOf(plan)
                     && acts == [Audited(Redeemed), Audited(Started), Performed(plan), Audited(Succeeded)]
    case Refused(e) =>
      || (acts == [] && e == SurfaceNotFound && call.grant.generation.Some?)
      || (acts == [Audited(Rejected)]
          && e in {GrantInvalid, GrantExpired, SurfaceNotFound, ProfileNotFound, StaleReference})
      || (acts == [Audited(Redeemed)] && e in {ParametersRequired, FullPageNotYetSupported, NodeRefOnlyNotSupported})
      || (acts == [Audited(Redeemed), Audited(Rejected)] && e == GrantInvalid)
      || (acts == [Audited(Redeemed), Audited(Started)] && e == InternalError)
      || FailedAfterEffect(cfg, call, e, acts)
  }

  /** The errors that can follow an effect. */
  predicate LateError(e: ExecutionError) {
    e.InternalError? || e.ScreenshotFailed? || e.Timeout? || e.UiaFailed? || e.DeniedByPolicy? || e.NavigationFailed?
  }

  ghost predicate FailedAfterEffect(cfg: Config, call: Call, e: ExecutionError, acts: seq<Act>) {
    exists plan ::
      && Planned(cfg, call, plan)
      && ((acts == [Audited(Redeemed), Audited(Started), Performed(plan)] && e == InternalError && plan.Capture?)
          || (acts == [Audited(Redeemed), Audited(Started), Performed(plan), Audited(Failed)]
              && LateError(e)))
  }

  /** The log of a call that stands at its phase. */
  ghost predicate Explains(cfg: Config, call: Call, acts: seq<Act>) {
    match call.phase
    case Fresh => acts == []
    case Admitted => acts == [Audited(Redeemed)] && SignatureHolds(cfg, call)
    case Vetted(plan) => acts == [Audited(Redeemed)] && Planned(cfg, call, plan)
    case Announced(plan) => acts == [Audited(Redeemed), Audited(Started)] && Planned(cfg, call, plan)
    case Armed(plan) => acts == [Audited(Redeemed), Audited(Started)] && Planned(cfg, call, plan) && plan.NavigateTo?
    case Rooted(plan) => acts == [Audited(Redeemed), Audited(Started)] && Planned(cfg, call, plan) && plan.Submit?
    case Issued(plan) =>
      acts == [Audited(Redeemed), Audited(Started), Performed(plan)] && Planned(cfg, call, plan) && plan.NavigateTo?
    case Capturing(plan) =>
      acts == [Audited(Redeemed), Audited(Started), Performed(plan)] && Planned(cfg, call, plan) && plan.Capture?
    case Submitted(plan) =>
      acts == [Audited(Redeemed), Audited(Started), Performed(plan)] && Planned(cfg, call, plan) && plan.Submit?
    case Finished(reply) => ExplainsReply(cfg, call, reply, acts)
    case _ => acts == [] && SignatureHolds(cfg, call)
  }

  predicate BeforeEffect(p: Phase) {
    p.Announced? || p.Armed? || p.Rooted?
  }

  lemma EarlyStepExplained(cfg: Config, call: Call, seen: Seen, input: Input, acts: seq<Act>)
    requires CanMove(call, seen, input) && Explains(cfg, call, acts)
    requires !call.phase.Admitted? && !call.phase.Vetted? && !BeforeEffect(call.phase)
    requires !call.phase.Issued? && !call.phase.Capturing? && !call.phase.Submitted?
    ensures var m := Local(cfg, call, seen, input);
            Explains(cfg, call.(phase := m.phase), acts + m.acts)
  {}

  lemma VetLogged(cfg: Config, call: Call, acts: seq<Act>)
    requires call.phase.Admitted? && Explains(cfg, call, acts)
    ensures var m := Vet(cfg, call);
            Explains(cfg, call.(phase := m.phase), acts + m.acts)
  {}

  lemma VetPlansWhatIsAsked(cfg: Config, call: Call)
    ensures var p := Vet(cfg, call).phase;
            p.Vetted? ==> call.params.Some? && Asks(call.params.value, call.grant.surfaceId, p.plan)
  {
    if Vet(cfg, call).phase.Vetted? {
      EffectIsAsked(call.params.value, call.grant.surfaceId);
    }
  }

  lemma VetExplained(cfg: Config, call: Call, acts: seq<Act>)
    requires call.phase.Admitted? && Explains(cfg, call, acts)
    ensures var m := Vet(cfg, call);
            Explains(cfg, call.(phase := m.phase), acts + m.acts)
    ensures var p := Vet(cfg, call).phase;
            p.Vetted? ==> call.params.Some? && Asks(call.params.value, call.grant.surfaceId, p.plan)
  {
    VetLogged(cfg, call, acts);
    VetPlansWhatIsAsked(cfg, call);
  }

  lemma AnnounceExplained(cfg: Config, call: Call, seen: Seen, input: Input, acts: seq<Act>)
    requires CanMove(call, seen, input) && Explains(cfg, call, acts) && call.phase.Vetted?
    ensures var m := Local(cfg, call, seen, input);
            Explains(cfg, call.(phase := m.phase), acts + m.acts)
  {
    var plan := call.phase.plan;
    assert Planned(cfg, call.(phase := Announced(plan)), plan);
    assert acts + [Audited(Started)] == [Audited(Redeemed), Audited(Started)];
  }

  lemma FailureExplained(cfg: Config, call: Call, plan: Effect, e: ExecutionError, acts: seq<Act>)
    requires Planned(cfg, call, plan)
    requires acts == [Audited(Redeemed), Audited(Started), Performed(plan), Audited(Failed)]
    requires LateError(e)
    ensures Explains(cfg, call.(phase := Finished(Refused(e))), acts)
  {
    var after := call.(phase := Finished(Refused(e)));
    assert Planned(cfg, after, plan);
    assert FailedAfterEffect(cfg, after, e, acts);
  }

  lemma SuccessExplained(cfg: Config, call: Call, plan: Effect, acts: seq<Act>)
    requires Planned(cfg, call, plan)
    requires acts == [Audited(Redeemed), Audited(Started), Performed(plan), Audited(Succeeded)]
    ensures Explains(cfg, call.(phase := Finished(Executed(KindOf(plan)))), acts)
  {
    assert Planned(cfg, call.(phase := Finished(Executed(KindOf(plan)))), plan);
  }

  lemma WaitExplained(cfg: Config, call: Call, plan: Effect, p: Phase, acts: seq<Act>)
    requires Planned(cfg, call, plan)
    requires acts == [Audited(Redeemed), Audited(Started), Performed(plan)]
    requires || (p == Issued(plan) && plan.NavigateTo?) || (p == Capturing(plan) && plan.Capture?)
             || (p == Submitted(plan) && plan.Submit?)
             || (p == Finished(Refused(InternalError)) && plan.Capture?)
    ensures Explains(cfg, call.(phase := p), acts)
  {
    assert Planned(cfg, call.(phase := p), plan);
  }

  /** A call whose plan stands, announced and with no effect yet. */
  ghost predicate Ready(cfg: Config, call: Call, plan: Effect, acts: seq<Act>) {
    Planned(cfg, call, plan) && acts == [Audited(Redeemed), Audited(Started)]
  }

  lemma BeginExplained(cfg: Config, call: Call, plan: Effect, seen: Seen, input: Input, acts: seq<Act>)
    requires Ready(cfg, call, plan, acts)
    ensures var m := Begin(plan, seen, input);
            Explains(cfg, call.(phase := m.phase), acts + m.acts)
  {
    var m := Begin(plan, seen, input);
    if m.acts == [] {
      assert acts + m.acts == acts;
      assert Planned(cfg, call.(phase := m.phase), plan);
    } else {
      WaitExplained(cfg, call, plan, m.phase, acts + m.acts);
    }
  }

  lemma RefusedAtIssueExplained(cfg: Config, call: Call, plan: Effect, e: ExecutionError, acts: seq<Act>)
    requires Ready(cfg, call, plan, acts) && LateError(e)
    ensures Explains(cfg, call.(phase := Finished(Refused(e))), acts + [Performed(plan), Audited(Failed)])
  {
    FailureExplained(cfg, call, plan, e, acts + [Performed(plan), Audited(Failed)]);
  }

  lemma IssueExplained(cfg: Config, call: Call, plan: Effect, seen: Seen, input: Input, acts: seq<Act>)
    requires Ready(cfg, call, plan, acts) && plan.NavigateTo?
    ensures var m := IssueNavigation(plan, seen, input);
            Explains(cfg, call.(phase := m.phase), acts + m.acts)
  {
    if seen.present && input.platformOk {
      WaitExplained(cfg, call, plan, Issued(plan), acts + [Performed(plan)]);
    } else {
      RefusedAtIssueExplained(cfg, call, plan, InternalError, acts);
    }
  }

  lemma SubmitExplained(cfg: Config, call: Call, plan: Effect, input: Input, acts: seq<Act>)
    requires Ready(cfg, call, plan, acts) && plan.Submit?
    ensures var m := SubmitOperation(plan, input);
            Explains(cfg, call.(phase := m.phase), acts + m.acts)
  {
    if !input.platformOk {
      RefusedAtIssueExplained(cfg, call, plan, InternalError, acts);
    } else if input.wait == UiaError {
      RefusedAtIssueExplained(cfg, call, plan, UiaFailed, acts);
    } else {
      WaitExplained(cfg, call, plan, Submitted(plan), acts + [Performed(plan)]);
    }
  }

  ghost predicate Ends(m: Move, plan: Effect) {
    m == Succeed(KindOf(plan)) || exists e :: m == Fail(e) && LateError(e)
  }

  lemma NavigationEnds(plan: Effect, seen: Seen, input: Input)
    requires plan.NavigateTo?
    ensures Ends(FinishNavigation(seen, input), plan)
  {}

  lemma WaitsEnd(plan: Effect, input: Input)
    ensures plan.Capture? ==> Ends(FinishCapture(input), plan)
    ensures Ends(FinishOperation(plan, input), plan)
    ensures FinishCapture(input).phase == Finished(Executed(ScreenshotKind)) <==> input.wait == CaptureDone
    ensures FinishOperation(plan, input).phase == Finished(Executed(KindOf(plan)))
            <==> input.wait == UiaDone(KindOf(plan))
  {}

  lemma EndExplained(cfg: Config, call: Call, m: Move, plan: Effect, acts: seq<Act>)
    requires Planned(cfg, call, plan) && acts == [Audited(Redeemed), Audited(Started), Performed(plan)]
    requires Ends(m, plan)
    ensures Explains(cfg, call.(phase := m.phase), acts + m.acts)
  {
    if m == Succeed(KindOf(plan)) {
      SuccessExplained(cfg, call, plan, acts + [Audited(Succeeded)]);
    } else {
      var e :| m == Fail(e) && LateError(e);
      FailureExplained(cfg, call, plan, e, acts + [Audited(Failed)]);
    }
  }

  /** One step of a call extends its log by what explains its new phase. */
  lemma StepExplained(cfg: Config, call: Call, seen: Seen, input: Input, acts: seq<Act>)
    requires CanMove(call, seen, input) && Explains(cfg, call, acts)
    ensures var m := Local(cfg, call, seen, input);
            Explains(cfg, call.(phase := m.phase), acts + m.acts)
  {
    match call.phase
    case Admitted => VetExplained(cfg, call, acts);
    case Vetted(_) => AnnounceExplained(cfg, call, seen, input, acts);
    case Announced(plan) => BeginExplained(cfg, call, plan, seen, input, acts);
    case Armed(plan) => IssueExplained(cfg, call, plan, seen, input, acts);
    case Rooted(plan) => SubmitExplained(cfg, call, plan, input, acts);
    case Issued(plan) =>
      NavigationEnds(plan, seen, input);
      EndExplained(cfg, call, FinishNavigation(seen, input), plan, acts);
    case Capturing(plan) =>
      WaitsEnd(plan, input);
      EndExplained(cfg, call, FinishCapture(input), plan, acts);
    case Submitted(plan) =>
      WaitsEnd(plan, input);
      EndExplained(cfg, call, FinishOperation(plan, input), plan, acts);
    case _ => EarlyStepExplained(cfg, call, seen, input, acts);
  }

  // ---------------------------------------------------------------- what applying a move changes

  predicate SameRequest(a: Call, b: Call) {
    a.grant == b.grant && a.signature == b.signature && a.params == b.params
  }

  /** `calls` with only `c` changed, and that only in its phase and handles. */
  ghost predicate OnlyMoved(before: map<CallId, Call>, after: map<CallId, Call>, c: CallId, phase: Phase)
    requires c in before
  {
    && after.Keys == before.Keys
    && (forall d :: d in before && d != c ==> after[d] == before[d])
    && SameRequest(after[c], before[c]) && after[c].phase == phase
  }

  lemma OperateFrame(w: World, c: CallId, op: Op)
    requires c in w.calls
    ensures OnlyMoved(w.calls, Operate(w, c, op).calls, c, w.calls[c].phase)
    ensures op != RequestLock ==> Operate(w, c, op).calls[c].lock == w.calls[c].lock
    ensures op != ArmWaiter ==> Operate(w, c, op).calls[c].waiter == w.calls[c].waiter
  {
    match op
    case RequestLock =>
      if w.calls[c].grant.surfaceId in w.lockOf {} else {}
    case ArmWaiter =>
      if w.calls[c].grant.surfaceId in w.navigation {} else {}
    case _ =>
      assert Operate(w, c, op).calls == w.calls;
  }

  lemma ApplyFrame(w: World, c: CallId, m: Move)
    requires c in w.calls
    ensures OnlyMoved(w.calls, Apply(w, c, m).calls, c, m.phase)
    ensures m.op != RequestLock ==> Apply(w, c, m).calls[c].lock == w.calls[c].lock
    ensures m.op != ArmWaiter ==> Apply(w, c, m).calls[c].waiter == w.calls[c].waiter
  {
    OperateFrame(Advance(w, c, m), c, m.op);
  }

  lemma OperateLeaves(w: World, c: CallId, op: Op)
    requires c in w.calls
    ensures var v := Operate(w, c, op);
            && v.log == w.log && v.live == w.live && v.bindings == w.bindings && v.active == w.active
            && v.events == w.events
  {}

  lemma ApplyLogs(w: World, c: CallId, m: Move)
    requires c in w.calls
    ensures var v := Apply(w, c, m);
            && v.log == w.log + Tag(c, m.acts)
            && v.live == w.live && v.bindings == w.bindings && v.active == w.active && v.events == w.events
  {
    OperateLeaves(Advance(w, c, m), c, m.op);
  }

  /** What a step may do depends on where the call stands. */
  lemma MovesByPhase(cfg: Config, call: Call, seen: Seen, input: Input)
    requires CanMove(call, seen, input)
    ensures var m := Local(cfg, call, seen, input);
            && (m.op == MarkId <==> call.phase == TimeOk && m.phase == Marked)
            && (m.op == MarkId ==> !seen.redeemed)
            && (m.op == RequestLock <==> call.phase == Marked)
            && (m.op == RequestLock <==> m.phase == Queued)
            && (m.op == TakeLock <==> call.phase == Queued)
            && (m.op == TakeLock ==> m.phase == Inside && seen.lockFree)
            && (m.op == ReleaseLock <==> InSection(call.phase) && m.phase.Finished?)
            && (m.op == ArmWaiter ==> call.phase.Announced? && m.phase.Armed? && seen.present)
            && (m.op == ArmWaiter <==> m.phase.Armed?)
  {}

  lemma PhasesAdvance(cfg: Config, call: Call, seen: Seen, input: Input)
    requires CanMove(call, seen, input)
    ensures var m := Local(cfg, call, seen, input);
            && (PastMark(m.phase) ==> PastMark(call.phase) || m.op == MarkId)
            && (InSection(m.phase) ==> InSection(call.phase) || m.op == TakeLock)
            && (InSection(call.phase) ==> InSection(m.phase) || m.phase.Finished?)
            && (m.phase.Issued? ==> call.phase.Armed?)
            && (m.phase != Fresh)
  {}

  lemma EffectsByPhase(cfg: Config, call: Call, seen: Seen, input: Input)
    requires CanMove(call, seen, input)
    ensures var m := Local(cfg, call, seen, input);
            && |m.acts| <= 2
            && (|m.acts| == 2 ==> m.acts[1].Audited?)
            && (|m.acts| > 0 && m.acts[0].Performed? ==> BeforeEffect(call.phase))
  {}

  // ---------------------------------------------------------------- the log tells each call's story

  ghost predicate LogExplained(cfg: Config, w: World) {
    && (forall i :: 0 <= i < |w.log| ==> w.log[i].call in w.calls)
    && (forall c :: c in w.calls ==> Explains(cfg, w.calls[c], Project(w.log, c)))
  }

  lemma ExplainsIgnoresHandles(cfg: Config, a: Call, b: Call, acts: seq<Act>)
    requires SameRequest(a, b) && a.phase == b.phase && Explains(cfg, a, acts)
    requires a.phase.Finished? ==> a == b
    ensures Explains(cfg, b, acts)
  {}

  /** Applying a move adds its acts to the projection of its own call, and nothing to another's. */
  lemma ProjectApply(w: World, c: CallId, m: Move, d: CallId)
    requires c in w.calls
    ensures Project(Apply(w, c, m).log, d) == Project(w.log, d) + if c == d then m.acts else []
  {
    ApplyLogs(w, c, m);
    ProjectAppend(w.log, Tag(c, m.acts), d);
    ProjectTag(c, m.acts, d);
  }

  lemma OwnLogExplained(cfg: Config, w: World, c: CallId, input: Input)
    requires Enabled(w, Step(c, input)) && Explains(cfg, w.calls[c], Project(w.log, c))
    ensures var v := Next(cfg, w, Step(c, input));
            c in v.calls && Explains(cfg, v.calls[c], Project(v.log, c))
  {
    var call := w.calls[c];
    var seen := See(w, call);
    var m := Local(cfg, call, seen, input);
    var v := Apply(w, c, m);
    ApplyFrame(w, c, m);
    MovesByPhase(cfg, call, seen, input);
    ProjectApply(w, c, m, c);
    StepExplained(cfg, call, seen, input, Project(w.log, c));
    ExplainsIgnoresHandles(cfg, call.(phase := m.phase), v.calls[c], Project(v.log, c));
  }

  lemma StepKeepsLogExplained(cfg: Config, w: World, c: CallId, input: Input)
    requires LogExplained(cfg, w) && Enabled(w, Step(c, input))
    ensures LogExplained(cfg, Next(cfg, w, Step(c, input)))
  {
    var m := Local(cfg, w.calls[c], See(w, w.calls[c]), input);
    var v := Apply(w, c, m);
    ApplyFrame(w, c, m);
    LogOnlyOfCalls(w, c, m);
    forall d | d in v.calls ensures Explains(cfg, v.calls[d], Project(v.log, d)) {
      if d == c {
        OwnLogExplained(cfg, w, c, input);
      } else {
        ProjectApply(w, c, m, d);
        assert Project(w.log, d) + [] == Project(w.log, d);
      }
    }
  }

  lemma LogOnlyOfCalls(w: World, c: CallId, m: Move)
    requires c in w.calls && forall i :: 0 <= i < |w.log| ==> w.log[i].call in w.calls
    ensures var v := Apply(w, c, m);
            forall i :: 0 <= i < |v.log| ==> v.log[i].call in v.calls
  {
    ApplyFrame(w, c, m);
    ApplyLogs(w, c, m);
  }

  lemma EnvironmentKeepsLogExplained(cfg: Config, w: World, l: Label)
    requires LogExplained(cfg, w) && Enabled(w, l) && !l.Step?
    ensures LogExplained(cfg, Next(cfg, w, l))
  {
    var v := Environment(w, l);
    if l.Spawn? {
      ProjectOfStranger(w.log, l.c);
    } else {
      EnvironmentFrame(w, l);
    }
  }

  lemma EnvironmentFrame(w: World, l: Label)
    requires !l.Step? && Enabled(w, l)
    ensures var v := Environment(w, l);
            && v.log == w.log && v.markedBy == w.markedBy
            && v.lockOf == w.lockOf && v.lockCount == w.lockCount && v.holder == w.holder
            && v.calls
               == if l.Spawn? then w.calls[l.c := Call(l.grant, l.signature, l.params, Fresh, 0, 0)] else w.calls
  {
    match l
    case NavigationStarting(s, Allow) =>
    case NavigationStarting(s, Deny(_)) =>
    case _ =>
  }

  // ---------------------------------------------------------------- single use

  function GrantIdOf(w: World, c: CallId): string
    requires c in w.calls
  {
    w.calls[c].grant.grantId
  }

  /** Every running call past its mark is the one that marked its grant. */
  ghost predicate MarksHeld(w: World) {
    forall c :: c in w.calls && PastMark(w.calls[c].phase) ==> IsMarker(w, c)
  }

  /** Every effect was performed by the call that marked its grant. */
  ghost predicate EffectsByMarkers(w: World) {
    forall i :: 0 <= i < |w.log| && w.log[i].act.Performed? ==> IsMarker(w, w.log[i].call)
  }

  ghost predicate OneEffectPerCall(w: World) {
    forall i, j :: 0 <= i < j < |w.log| && w.log[i].act.Performed? && w.log[j].act.Performed? ==>
      w.log[i].call != w.log[j].call
  }

  ghost predicate IsMarker(w: World, c: CallId) {
    c in w.calls && GrantIdOf(w, c) in w.markedBy && w.markedBy[GrantIdOf(w, c)] == c
  }

  ghost predicate MarksSound(w: World) {
    MarksHeld(w) && EffectsByMarkers(w) && OneEffectPerCall(w)
  }

  lemma MarkersStay(w: World, c: CallId, m: Move, d: CallId)
    requires c in w.calls && IsMarker(w, d)
    requires m.op == MarkId ==> GrantIdOf(w, c) !in w.markedBy
    ensures IsMarker(Apply(w, c, m), d)
  {}

  lemma MarkingMarks(w: World, c: CallId, m: Move)
    requires c in w.calls && m.op == MarkId
    ensures IsMarker(Apply(w, c, m), c)
  {}

  lemma StepKeepsMarksHeld(cfg: Config, w: World, c: CallId, input: Input)
    requires MarksHeld(w) && Enabled(w, Step(c, input))
    ensures MarksHeld(Next(cfg, w, Step(c, input)))
  {
    var call := w.calls[c];
    var seen := See(w, call);
    var m := Local(cfg, call, seen, input);
    var v := Apply(w, c, m);
    ApplyFrame(w, c, m);
    MovesByPhase(cfg, call, seen, input);
    PhasesAdvance(cfg, call, seen, input);
    forall d | d in v.calls && PastMark(v.calls[d].phase) ensures IsMarker(v, d) {
      if d == c && m.op == MarkId {
        MarkingMarks(w, c, m);
      } else {
        MarkersStay(w, c, m, d);
      }
    }
  }

  lemma StepKeepsEffectsByMarkers(cfg: Config, w: World, c: CallId, input: Input)
    requires MarksSound(w) && Enabled(w, Step(c, input))
    ensures EffectsByMarkers(Next(cfg, w, Step(c, input)))
  {
    var call := w.calls[c];
    var seen := See(w, call);
    var m := Local(cfg, call, seen, input);
    var v := Apply(w, c, m);
    ApplyLogs(w, c, m);
    MovesByPhase(cfg, call, seen, input);
    EffectsByPhase(cfg, call, seen, input);
    LogGrows(w, c, m);
    forall i | 0 <= i < |v.log| && v.log[i].act.Performed? ensures IsMarker(v, v.log[i].call) {
      assert IsMarker(w, v.log[i].call);
      MarkersStay(w, c, m, v.log[i].call);
    }
  }

  lemma StepKeepsOneEffect(cfg: Config, w: World, c: CallId, input: Input)
    requires LogExplained(cfg, w) && OneEffectPerCall(w) && Enabled(w, Step(c, input))
    ensures OneEffectPerCall(Next(cfg, w, Step(c, input)))
  {
    var call := w.calls[c];
    var seen := See(w, call);
    var m := Local(cfg, call, seen, input);
    ApplyLogs(w, c, m);
    EffectsByPhase(cfg, call, seen, input);
    NoEffectYet(cfg, w, c);
    LogGrows(w, c, m);
  }

  lemma StepKeepsMarks(cfg: Config, w: World, c: CallId, input: Input)
    requires LogExplained(cfg, w) && MarksSound(w) && Enabled(w, Step(c, input))
    ensures MarksSound(Next(cfg, w, Step(c, input)))
  {
    StepKeepsMarksHeld(cfg, w, c, input);
    StepKeepsEffectsByMarkers(cfg, w, c, input);
    StepKeepsOneEffect(cfg, w, c, input);
  }

  lemma LogGrows(w: World, c: CallId, m: Move)
    requires |m.acts| <= 2 && (|m.acts| == 2 ==> m.acts[1].Audited?)
    ensures var log := w.log + Tag(c, m.acts);
            forall i :: 0 <= i < |log| && log[i].act.Performed? ==>
              (i < |w.log| && log[i] == w.log[i]) || (i == |w.log| && log[i].call == c && m.acts[0].Performed?)
  {}

  lemma NoEffectBefore(cfg: Config, call: Call, acts: seq<Act>)
    requires BeforeEffect(call.phase) && Explains(cfg, call, acts)
    ensures forall a :: a in acts ==> a.Audited?
  {}

  /** A call about to perform its effect has performed none. */
  lemma NoEffectYet(cfg: Config, w: World, c: CallId)
    requires LogExplained(cfg, w) && c in w.calls
    ensures BeforeEffect(w.calls[c].phase) ==>
              forall i :: 0 <= i < |w.log| && w.log[i].act.Performed? ==> w.log[i].call != c
  {
    if BeforeEffect(w.calls[c].phase) {
      NoEffectBefore(cfg, w.calls[c], Project(w.log, c));
      forall i | 0 <= i < |w.log| && w.log[i].act.Performed? ensures w.log[i].call != c {
        if w.log[i].call == c {
          ProjectHasEveryAct(w.log, i);
        }
      }
    }
  }

  lemma EnvironmentKeepsMarks(cfg: Config, w: World, l: Label)
    requires MarksSound(w) && Enabled(w, l) && !l.Step?
    ensures MarksSound(Next(cfg, w, l))
  {
    EnvironmentFrame(w, l);
  }

  // ---------------------------------------------------------------- one call per surface

  predicate HasLockObject(p: Phase) {
    p == Queued || InSection(p)
  }

  /** No two surfaces share a lock object. */
  ghost predicate LocksDistinct(w: World) {
    && (forall s, t :: s in w.lockOf && t in w.lockOf && w.lockOf[s] == w.lockOf[t] ==> s == t)
    && (forall s :: s in w.lockOf ==> w.lockOf[s] < w.lockCount)
  }

  /** A call that asked for its surface's lock has the surface's lock. */
  ghost predicate LocksHandedOut(w: World) {
    forall c :: c in w.calls && HasLockObject(w.calls[c].phase) ==>
      w.calls[c].grant.surfaceId in w.lockOf && w.calls[c].lock == w.lockOf[w.calls[c].grant.surfaceId]
  }

  /** A lock is held exactly by the one call inside its section. */
  ghost predicate LocksHeld(w: World) {
    && (forall c :: c in w.calls && InSection(w.calls[c].phase) ==>
          w.calls[c].lock in w.holder && w.holder[w.calls[c].lock] == c)
    && (forall k :: k in w.holder ==>
          w.holder[k] in w.calls && InSection(w.calls[w.holder[k]].phase) && w.calls[w.holder[k]].lock == k)
  }

  ghost predicate LocksSound(w: World) {
    LocksDistinct(w) && LocksHandedOut(w) && LocksHeld(w)
  }

  lemma LockTableOnlyGrows(w: World, c: CallId, m: Move)
    requires LocksDistinct(w) && c in w.calls
    ensures var v := Apply(w, c, m);
            && LocksDistinct(v)
            && (forall s :: s in w.lockOf ==> s in v.lockOf && v.lockOf[s] == w.lockOf[s])
  {
    if m.op == RequestLock {
      assert w.calls[c].grant.surfaceId in w.lockOf || w.calls[c].grant.surfaceId !in w.lockOf;
    }
  }

  lemma RequestGetsTheLock(w: World, c: CallId, m: Move)
    requires c in w.calls && m.op == RequestLock
    ensures var v := Apply(w, c, m);
            v.calls[c].grant.surfaceId in v.lockOf && v.calls[c].lock == v.lockOf[v.calls[c].grant.surfaceId]
  {}

  lemma MoveKeepsHandedOut(w: World, c: CallId, m: Move)
    requires LocksDistinct(w) && LocksHandedOut(w) && c in w.calls
    requires HasLockObject(m.phase) ==> HasLockObject(w.calls[c].phase) || m.op == RequestLock
    ensures LocksHandedOut(Apply(w, c, m))
  {
    var v := Apply(w, c, m);
    LockTableOnlyGrows(w, c, m);
    ApplyFrame(w, c, m);
    forall d | d in v.calls && HasLockObject(v.calls[d].phase)
      ensures v.calls[d].grant.surfaceId in v.lockOf && v.calls[d].lock == v.lockOf[v.calls[d].grant.surfaceId]
    {
      if d == c && m.op == RequestLock {
        RequestGetsTheLock(w, c, m);
      } else {
        assert HasLockObject(w.calls[d].phase);
      }
    }
  }

  lemma HolderAfter(w: World, c: CallId, m: Move)
    requires c in w.calls
    ensures Apply(w, c, m).holder ==
            if m.op == TakeLock then w.holder[w.calls[c].lock := c]
            else if m.op == ReleaseLock then w.holder - {w.calls[c].lock}
            else w.holder
  {}

  /** The moved call is inside its section before and after, or neither. */
  lemma SameHolderKeepsHeld(w: World, v: World, c: CallId)
    requires LocksHeld(w) && c in w.calls && c in v.calls
    requires OnlyMoved(w.calls, v.calls, c, v.calls[c].phase) && v.holder == w.holder
    requires InSection(v.calls[c].phase) == InSection(w.calls[c].phase)
    requires InSection(w.calls[c].phase) ==> v.calls[c].lock == w.calls[c].lock
    ensures LocksHeld(v)
  {}

  lemma TakingKeepsHeld(w: World, v: World, c: CallId)
    requires LocksHeld(w) && c in w.calls && c in v.calls
    requires OnlyMoved(w.calls, v.calls, c, v.calls[c].phase) && v.calls[c].lock == w.calls[c].lock
    requires w.calls[c].lock !in w.holder && v.holder == w.holder[w.calls[c].lock := c]
    requires !InSection(w.calls[c].phase) && InSection(v.calls[c].phase)
    ensures LocksHeld(v)
  {}

  lemma ReleasingKeepsHeld(w: World, v: World, c: CallId)
    requires LocksHeld(w) && c in w.calls && c in v.calls
    requires OnlyMoved(w.calls, v.calls, c, v.calls[c].phase) && v.calls[c].lock == w.calls[c].lock
    requires v.holder == w.holder - {w.calls[c].lock}
    requires InSection(w.calls[c].phase) && !InSection(v.calls[c].phase)
    ensures LocksHeld(v)
  {}

  lemma MoveKeepsHeld(w: World, c: CallId, m: Move)
    requires LocksHeld(w) && c in w.calls
    requires m.op == TakeLock ==> !InSection(w.calls[c].phase) && InSection(m.phase) && w.calls[c].lock !in w.holder
    requires m.op == ReleaseLock ==> InSection(w.calls[c].phase) && !InSection(m.phase)
    requires m.op == RequestLock ==> !InSection(w.calls[c].phase) && !InSection(m.phase)
    requires m.op in {Nothing, MarkId, ArmWaiter} ==> InSection(m.phase) == InSection(w.calls[c].phase)
    ensures LocksHeld(Apply(w, c, m))
  {
    var v := Apply(w, c, m);
    ApplyFrame(w, c, m);
    HolderAfter(w, c, m);
    match m.op
    case TakeLock => TakingKeepsHeld(w, v, c);
    case ReleaseLock => ReleasingKeepsHeld(w, v, c);
    case _ => SameHolderKeepsHeld(w, v, c);
  }

  lemma StepKeepsLocks(cfg: Config, w: World, c: CallId, input: Input)
    requires LocksSound(w) && Enabled(w, Step(c, input))
    ensures LocksSound(Next(cfg, w, Step(c, input)))
  {
    var call := w.calls[c];
    var seen := See(w, call);
    var m := Local(cfg, call, seen, input);
    MovesByPhase(cfg, call, seen, input);
    PhasesAdvance(cfg, call, seen, input);
    LockTableOnlyGrows(w, c, m);
    MoveKeepsHandedOut(w, c, m);
    MoveKeepsHeld(w, c, m);
  }

  lemma EnvironmentKeepsLocks(cfg: Config, w: World, l: Label)
    requires LocksSound(w) && Enabled(w, l) && !l.Step?
    ensures LocksSound(Next(cfg, w, l))
  {
    EnvironmentFrame(w, l);
  }

  /** `lock_for` gives one lock per surface, so two calls for one surface are never both inside. */
  lemma OneCallPerSurface(w: World, c: CallId, d: CallId)
    requires LocksSound(w) && c in w.calls && d in w.calls
    requires InSection(w.calls[c].phase) && InSection(w.calls[d].phase)
    requires w.calls[c].grant.surfaceId == w.calls[d].grant.surfaceId
    ensures c == d
  {}
}
