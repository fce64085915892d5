/** The one-shot navigation waiter: whose sender is in a surface's slot, what its receiver gets, and why
    arming never takes the sender away from a call that still waits. */
module NavigationWaiters {
  import opened Wrappers
  import opened RedeemProtocol
  import opened RedeemSafety

  /** `outcome` is that of the first event on `s` from position `from` on. */
  ghost predicate FirstAfter(events: seq<Event>, from: nat, s: string, outcome: NavigationOutcome) {
    exists k :: from <= k < |events| && events[k] == Event(s, outcome) && Quiet(events, from, k, s)
  }

  /** No event on `s` from `from` up to `to`. */
  predicate Quiet(events: seq<Event>, from: nat, to: nat, s: string) {
    forall j :: from <= j < to && j < |events| ==> events[j].surface != s
  }

  /** The sender in a slot belongs to a waiter of that surface for which nothing has happened yet. */
  ghost predicate SlotSound(w: World, s: string)
    requires s in w.navigation
  {
    var slot := w.navigation[s].slot;
    slot.Some? ==>
      && slot.value < |w.waiters|
      && w.waiters[slot.value].surface == s && w.waiters[slot.value].outcome.None? && !w.waiters[slot.value].closed
      && Quiet(w.events, w.waiters[slot.value].armedAt, |w.events|, s)
  }

  ghost predicate SlotsSound(w: World) {
    forall s :: s in w.navigation ==> SlotSound(w, s)
  }

  ghost predicate WaiterSound(w: World, i: nat)
    requires i < |w.waiters|
  {
    var x := w.waiters[i];
    && x.armedAt <= |w.events|
    && (x.outcome.Some? ==> FirstAfter(w.events, x.armedAt, x.surface, x.outcome.value))
  }

  ghost predicate WaitersSound(w: World) {
    forall i :: 0 <= i < |w.waiters| ==> WaiterSound(w, i)
  }

  /** Call `c` waits on a channel of its own surface. The sender is still in the slot, or has been used, or has gone
      with the surface's handlers. */
  ghost predicate Attended(w: World, c: CallId)
    requires c in w.calls
  {
    var call := w.calls[c];
    var s := call.grant.surfaceId;
    && call.waiter < |w.waiters|
    && w.waiters[call.waiter].surface == s
    && s in w.navigation
    && (s in w.live ==> !w.waiters[call.waiter].closed)
    && (w.waiters[call.waiter].outcome.None? && !w.waiters[call.waiter].closed ==>
          w.navigation[s].slot == Some(call.waiter))
  }

  ghost predicate CallsAttended(w: World) {
    && w.live <= w.navigation.Keys
    && forall c :: c in w.calls && WaitsForNavigation(w.calls[c].phase) ==> Attended(w, c)
  }

  ghost predicate ChannelsSound(w: World) {
    SlotsSound(w) && WaitersSound(w) && CallsAttended(w)
  }

  // ---------------------------------------------------------------- steps that leave the channels alone

  predicate SameChannels(w: World, v: World) {
    w.waiters == v.waiters && w.navigation == v.navigation && w.events == v.events && w.live == v.live
  }

  lemma OperateKeepsChannels(w: World, c: CallId, op: Op)
    requires c in w.calls && op != ArmWaiter
    ensures SameChannels(w, Operate(w, c, op))
  {}

  lemma QuietMoveKeepsChannels(w: World, c: CallId, m: Move)
    requires ChannelsSound(w) && c in w.calls && m.op != ArmWaiter
    requires WaitsForNavigation(m.phase) ==> WaitsForNavigation(w.calls[c].phase)
    ensures ChannelsSound(Apply(w, c, m))
  {
    var v := Apply(w, c, m);
    OperateKeepsChannels(Advance(w, c, m), c, m.op);
    ApplyFrame(w, c, m);
    SameChannelsKeepSlots(w, v);
    forall d | d in v.calls && WaitsForNavigation(v.calls[d].phase) ensures Attended(v, d) {
      assert Attended(w, d);
    }
  }

  lemma SameChannelsKeepSlots(w: World, v: World)
    requires SameChannels(w, v) && SlotsSound(w) && WaitersSound(w)
    ensures SlotsSound(v) && WaitersSound(v)
  {
    forall s | s in v.navigation ensures SlotSound(v, s) { assert SlotSound(w, s); }
    forall i | 0 <= i < |v.waiters| ensures WaiterSound(v, i) { assert WaiterSound(w, i); }
  }

  // ---------------------------------------------------------------- arming

  /** When a call arms, the sender it overwrites, if any, is one no call waits for: the surface's lock
      keeps every other call of that surface outside. */
  lemma ArmingAbandonsNobody(w: World, c: CallId, d: CallId)
    requires LocksSound(w) && ChannelsSound(w) && c in w.calls && d in w.calls
    requires w.calls[c].phase.Announced? && w.calls[c].grant.surfaceId in w.live
    requires WaitsForNavigation(w.calls[d].phase)
    ensures w.navigation[w.calls[c].grant.surfaceId].slot != Some(w.calls[d].waiter)
    ensures w.calls[d].grant.surfaceId != w.calls[c].grant.surfaceId
  {}

  lemma ArmChannels(w: World, c: CallId)
    requires c in w.calls && w.calls[c].grant.surfaceId in w.navigation
    ensures var s := w.calls[c].grant.surfaceId;
            var v := Operate(w, c, ArmWaiter);
            && v.events == w.events && v.live == w.live
            && v.navigation == w.navigation[s := w.navigation[s].(slot := Some(|w.waiters|))]
            && v.waiters == CloseSlot(w.waiters, w.navigation[s].slot) + [Waiter(s, |w.events|, None, false)]
            && v.calls == w.calls[c := w.calls[c].(waiter := |w.waiters|)]
  {}

  lemma CloseSlotFrame(waiters: seq<Waiter>, slot: Option<WaiterId>)
    ensures |CloseSlot(waiters, slot)| == |waiters|
    ensures forall i :: 0 <= i < |waiters| ==>
              && CloseSlot(waiters, slot)[i].outcome == waiters[i].outcome
              && CloseSlot(waiters, slot)[i].surface == waiters[i].surface
              && CloseSlot(waiters, slot)[i].armedAt == waiters[i].armedAt
              && (slot != Some(i) ==> CloseSlot(waiters, slot)[i] == waiters[i])
  {}

  lemma ArmKeepsSlots(w: World, c: CallId)
    requires SlotsSound(w) && WaitersSound(w) && c in w.calls && w.calls[c].grant.surfaceId in w.navigation
    ensures var v := Operate(w, c, ArmWaiter);
            SlotsSound(v) && WaitersSound(v)
  {
    var s := w.calls[c].grant.surfaceId;
    var v := Operate(w, c, ArmWaiter);
    ArmChannels(w, c);
    CloseSlotFrame(w.waiters, w.navigation[s].slot);
    assert SlotSound(w, s);
    forall t | t in v.navigation ensures SlotSound(v, t) {
      if t != s { assert SlotSound(w, t); }
    }
    forall i | 0 <= i < |v.waiters| ensures WaiterSound(v, i) {
      if i < |w.waiters| { assert WaiterSound(w, i); }
    }
  }

  lemma ArmKeepsOthersAttended(w: World, c: CallId, d: CallId)
    requires c in w.calls && d in w.calls && c != d
    requires w.calls[c].grant.surfaceId in w.navigation
    requires Attended(w, d)
    requires w.calls[d].grant.surfaceId != w.calls[c].grant.surfaceId
    requires w.navigation[w.calls[c].grant.surfaceId].slot != Some(w.calls[d].waiter)
    ensures Attended(Operate(w, c, ArmWaiter), d)
  {}

  lemma ArmAttends(w: World, c: CallId)
    requires c in w.calls && w.calls[c].grant.surfaceId in w.navigation
    ensures Attended(Operate(w, c, ArmWaiter), c)
  {}

  lemma ArmMoveKeepsChannels(w: World, c: CallId, m: Move)
    requires LocksSound(w) && ChannelsSound(w) && c in w.calls && m.op == ArmWaiter
    requires w.calls[c].phase.Announced? && w.calls[c].grant.surfaceId in w.live
    ensures ChannelsSound(Apply(w, c, m))
  {
    var u := Advance(w, c, m);
    var v := Apply(w, c, m);
    SameChannelsKeepSlots(w, u);
    ArmKeepsSlots(u, c);
    ArmChannels(u, c);
    forall d | d in v.calls && WaitsForNavigation(v.calls[d].phase) ensures Attended(v, d) {
      if d == c {
        ArmAttends(u, c);
      } else {
        assert Attended(w, d);
        ArmingAbandonsNobody(w, c, d);
        assert Attended(u, d);
        ArmKeepsOthersAttended(u, c, d);
      }
    }
  }

  lemma StepKeepsChannels(cfg: Config, w: World, c: CallId, input: Input)
    requires LocksSound(w) && ChannelsSound(w) && Enabled(w, Step(c, input))
    ensures ChannelsSound(Next(cfg, w, Step(c, input)))
  {
    var call := w.calls[c];
    var seen := See(w, call);
    var m := Local(cfg, call, seen, input);
    MovesByPhase(cfg, call, seen, input);
    PhasesAdvance(cfg, call, seen, input);
    if m.op == ArmWaiter {
      ArmMoveKeepsChannels(w, c, m);
    } else {
      QuietMoveKeepsChannels(w, c, m);
    }
  }

  // ---------------------------------------------------------------- events

  lemma FirstAfterStays(events: seq<Event>, e: Event, from: nat, s: string, o: NavigationOutcome)
    requires FirstAfter(events, from, s, o)
    ensures FirstAfter(events + [e], from, s, o)
  {
    var k :| from <= k < |events| && events[k] == Event(s, o) && Quiet(events, from, k, s);
    assert (events + [e])[k] == Event(s, o) && Quiet(events + [e], from, k, s);
  }

  lemma FirstAfterNow(events: seq<Event>, from: nat, s: string, o: NavigationOutcome)
    requires from <= |events| && Quiet(events, from, |events|, s)
    ensures FirstAfter(events + [Event(s, o)], from, s, o)
  {
    var k := |events|;
    assert (events + [Event(s, o)])[k] == Event(s, o) && Quiet(events + [Event(s, o)], from, k, s);
  }

  lemma ResolveKeepsWaiters(w: World, s: string, o: NavigationOutcome)
    requires SlotsSound(w) && WaitersSound(w) && s in w.navigation
    ensures WaitersSound(Resolve(w, s, o))
  {
    var v := Resolve(w, s, o);
    assert SlotSound(w, s);
    forall i | 0 <= i < |v.waiters| ensures WaiterSound(v, i) {
      assert WaiterSound(w, i);
      var x := w.waiters[i];
      if x.outcome.Some? {
        FirstAfterStays(w.events, Event(s, o), x.armedAt, x.surface, x.outcome.value);
      } else if w.navigation[s].slot == Some(i) {
        FirstAfterNow(w.events, x.armedAt, s, o);
      }
    }
  }

  lemma ResolveKeepsSlots(w: World, s: string, o: NavigationOutcome)
    requires SlotsSound(w) && s in w.navigation
    ensures SlotsSound(Resolve(w, s, o))
  {}

  lemma ResolveKeepsAttended(w: World, s: string, o: NavigationOutcome)
    requires SlotsSound(w) && CallsAttended(w) && s in w.navigation
    ensures CallsAttended(Resolve(w, s, o))
  {}

  lemma ResolveKeepsChannels(w: World, s: string, o: NavigationOutcome)
    requires ChannelsSound(w) && s in w.navigation
    ensures ChannelsSound(Resolve(w, s, o))
  {
    ResolveKeepsWaiters(w, s, o);
    ResolveKeepsSlots(w, s, o);
    ResolveKeepsAttended(w, s, o);
  }

  lemma DropKeepsChannels(w: World, s: string)
    requires ChannelsSound(w) && s in w.navigation && s !in w.live
    ensures ChannelsSound(Environment(w, DropHandlers(s)))
  {
    var v := Environment(w, DropHandlers(s));
    CloseSlotFrame(w.waiters, w.navigation[s].slot);
    assert SlotSound(w, s);
    forall t | t in v.navigation ensures SlotSound(v, t) {
      if t != s { assert SlotSound(w, t); }
    }
    forall i | 0 <= i < |v.waiters| ensures WaiterSound(v, i) { assert WaiterSound(w, i); }
    forall d | d in v.calls && WaitsForNavigation(v.calls[d].phase) ensures Attended(v, d) {
      assert Attended(w, d);
    }
  }

  /** A surface appears, disappears or starts an allowed navigation: the slots keep their senders. */
  lemma SurfaceChangeKeepsChannels(w: World, v: World)
    requires ChannelsSound(w)
    requires v.waiters == w.waiters && v.events == w.events && v.calls == w.calls
    requires v.live <= v.navigation.Keys && w.navigation.Keys <= v.navigation.Keys
    requires forall s :: s in w.navigation ==>
               v.navigation[s].slot == w.navigation[s].slot && (s in v.live ==> s in w.live)
    requires forall s :: s in v.navigation && s !in w.navigation ==> v.navigation[s].slot == None
    ensures ChannelsSound(v)
  {
    forall s | s in v.navigation ensures SlotSound(v, s) {
      if s in w.navigation { assert SlotSound(w, s); }
    }
    forall i | 0 <= i < |v.waiters| ensures WaiterSound(v, i) { assert WaiterSound(w, i); }
    forall d | d in v.calls && WaitsForNavigation(v.calls[d].phase) ensures Attended(v, d) {
      assert Attended(w, d);
    }
  }

  lemma OtherChangeKeepsChannels(w: World, l: Label)
    requires ChannelsSound(w) && Enabled(w, l)
    requires l.Spawn? || l.Bind? || l.Unbind? || l.TakeAll? || l.SetActive?
    ensures ChannelsSound(Environment(w, l))
  {
    var v := Environment(w, l);
    assert SameChannels(w, v);
    SameChannelsKeepSlots(w, v);
    forall d | d in v.calls && WaitsForNavigation(v.calls[d].phase) ensures Attended(v, d) {
      assert d in w.calls && v.calls[d] == w.calls[d];
      assert Attended(w, d);
    }
  }

  lemma EnvironmentKeepsChannels(cfg: Config, w: World, l: Label)
    requires ChannelsSound(w) && Enabled(w, l) && !l.Step?
    ensures ChannelsSound(Next(cfg, w, l))
  {
    match l
    case NavigationStarting(s, Allow) => SurfaceChangeKeepsChannels(w, Environment(w, l));
    case NavigationStarting(s, Deny(reason)) => ResolveKeepsChannels(w, s, PolicyDenied(reason));
    case NavigationCompleted(s, outcome) => ResolveKeepsChannels(w, s, outcome);
    case DropHandlers(s) => DropKeepsChannels(w, s);
    case CreateSurface(_) => SurfaceChangeKeepsChannels(w, Environment(w, l));
    case DestroySurface(_) => SurfaceChangeKeepsChannels(w, Environment(w, l));
    case DestroyAll => SurfaceChangeKeepsChannels(w, Environment(w, l));
    case _ => OtherChangeKeepsChannels(w, l);
  }

  // ---------------------------------------------------------------- what a receiver gets

  lemma MovesKeepOutcomes(w: World, c: CallId, m: Move, i: nat)
    requires c in w.calls && i < |w.waiters|
    ensures var v := Apply(w, c, m);
            && i < |v.waiters|
            && v.waiters[i].surface == w.waiters[i].surface && v.waiters[i].armedAt == w.waiters[i].armedAt
            && v.waiters[i].outcome == w.waiters[i].outcome
  {
    var u := Advance(w, c, m);
    if m.op != ArmWaiter {
      OperateKeepsChannels(u, c, m.op);
    } else if u.calls[c].grant.surfaceId in u.navigation {
      ArmChannels(u, c);
      CloseSlotFrame(u.waiters, u.navigation[u.calls[c].grant.surfaceId].slot);
    }
  }

  /** A channel carries at most one outcome: once sent, no step changes it, and no channel vanishes. */
  lemma OutcomesAreFinal(cfg: Config, w: World, l: Label, i: nat)
    requires SlotsSound(w) && Enabled(w, l) && i < |w.waiters|
    ensures var v := Next(cfg, w, l);
            && i < |v.waiters|
            && v.waiters[i].surface == w.waiters[i].surface && v.waiters[i].armedAt == w.waiters[i].armedAt
            && (w.waiters[i].outcome.Some? ==> v.waiters[i].outcome == w.waiters[i].outcome)
  {
    match l
    case Step(c, input) => MovesKeepOutcomes(w, c, Local(cfg, w.calls[c], See(w, w.calls[c]), input), i);
    case NavigationStarting(s, Allow) =>
    case NavigationStarting(s, Deny(_)) => assert SlotSound(w, s);
    case NavigationCompleted(s, _) => assert SlotSound(w, s);
    case DropHandlers(s) => CloseSlotFrame(w.waiters, w.navigation[s].slot);
    case _ =>
  }

  /** The reply a navigation outcome turns into. */
  function ReplyFor(o: NavigationOutcome): Reply {
    match o
    case Arrived => Executed(NavigateKind)
    case PolicyDenied(reason) => Refused(DeniedByPolicy(reason))
    case LoadFailed(status) => Refused(NavigationFailed(status))
  }

  predicate IsNavigationReply(r: Reply) {
    r == Executed(NavigateKind) || (r.Refused? && (r.error.DeniedByPolicy? || r.error.NavigationFailed?))
  }

  /** The reply reports what came through the call's own channel. */
  ghost predicate ReplyGrounded(w: World, c: CallId)
    requires c in w.calls
  {
    var call := w.calls[c];
    && call.waiter < |w.waiters|
    && w.waiters[call.waiter].surface == call.grant.surfaceId
    && w.waiters[call.waiter].outcome.Some?
    && call.phase == Finished(ReplyFor(w.waiters[call.waiter].outcome.value))
  }

  /** The call has returned what came through its channel. */
  predicate Reports(p: Phase) {
    p.Finished? && IsNavigationReply(p.reply)
  }

  ghost predicate RepliesGrounded(w: World) {
    forall c :: c in w.calls && Reports(w.calls[c].phase) ==> ReplyGrounded(w, c)
  }

  predicate AnswersNavigation(m: Move) {
    Reports(m.phase)
  }

  lemma VetAnswersNothing(cfg: Config, call: Call)
    ensures !AnswersNavigation(Vet(cfg, call))
  {}

  lemma OtherWaitsAnswerNoNavigation(plan: Effect, input: Input)
    ensures plan.Submit? ==> !AnswersNavigation(FinishOperation(plan, input))
    ensures !AnswersNavigation(FinishCapture(input))
  {}

  lemma WorkAnswersNoNavigation(plan: Effect, seen: Seen, input: Input)
    ensures !AnswersNavigation(Begin(plan, seen, input))
    ensures !AnswersNavigation(IssueNavigation(plan, seen, input))
    ensures !AnswersNavigation(SubmitOperation(plan, input))
  {}

  lemma NavigationAnswersItsOutcome(seen: Seen, input: Input)
    requires AnswersNavigation(FinishNavigation(seen, input))
    ensures seen.outcome.Some? && FinishNavigation(seen, input).phase == Finished(ReplyFor(seen.outcome.value))
  {}

  predicate ChecksOnly(p: Phase) {
    !p.Admitted? && !BeforeEffect(p) && !p.Issued? && !p.Capturing? && !p.Submitted?
  }

  lemma ChecksAnswerNothing(cfg: Config, call: Call, seen: Seen, input: Input)
    requires CanMove(call, seen, input) && ChecksOnly(call.phase)
    ensures !AnswersNavigation(Local(cfg, call, seen, input))
  {}

  lemma NavigationRepliesComeFromWaiting(cfg: Config, call: Call, seen: Seen, input: Input, acts: seq<Act>)
    requires CanMove(call, seen, input) && Explains(cfg, call, acts)
    requires AnswersNavigation(Local(cfg, call, seen, input))
    ensures call.phase.Issued? && seen.outcome.Some?
    ensures Local(cfg, call, seen, input).phase == Finished(ReplyFor(seen.outcome.value))
  {
    match call.phase
    case Admitted => VetAnswersNothing(cfg, call);
    case Announced(plan) => WorkAnswersNoNavigation(plan, seen, input);
    case Armed(plan) => WorkAnswersNoNavigation(plan, seen, input);
    case Rooted(plan) => WorkAnswersNoNavigation(plan, seen, input);
    case Capturing(plan) => OtherWaitsAnswerNoNavigation(plan, input);
    case Submitted(plan) => OtherWaitsAnswerNoNavigation(plan, input);
    case Issued(_) => NavigationAnswersItsOutcome(seen, input);
    case _ => ChecksAnswerNothing(cfg, call, seen, input);
  }

  lemma StepKeepsReplies(cfg: Config, w: World, c: CallId, input: Input)
    requires LogExplained(cfg, w) && ChannelsSound(w) && RepliesGrounded(w) && Enabled(w, Step(c, input))
    ensures RepliesGrounded(Next(cfg, w, Step(c, input)))
  {
    var call := w.calls[c];
    var seen := See(w, call);
    var m := Local(cfg, call, seen, input);
    var v := Apply(w, c, m);
    ApplyFrame(w, c, m);
    forall d | d in v.calls && Reports(v.calls[d].phase) ensures ReplyGrounded(v, d) {
      if d == c {
        NavigationRepliesComeFromWaiting(cfg, call, seen, input, Project(w.log, c));
        assert Attended(w, c);
        MovesByPhase(cfg, call, seen, input);
        OutcomesAreFinal(cfg, w, Step(c, input), call.waiter);
      } else {
        assert ReplyGrounded(w, d);
        OutcomesAreFinal(cfg, w, Step(c, input), w.calls[d].waiter);
      }
    }
  }

  lemma EnvironmentKeepsReplies(cfg: Config, w: World, l: Label)
    requires SlotsSound(w) && RepliesGrounded(w) && Enabled(w, l) && !l.Step?
    ensures RepliesGrounded(Next(cfg, w, l))
  {
    var v := Environment(w, l);
    EnvironmentFrame(w, l);
    forall d | d in v.calls && Reports(v.calls[d].phase) ensures ReplyGrounded(v, d) {
      assert d in w.calls && v.calls[d] == w.calls[d];
      assert ReplyGrounded(w, d);
      OutcomesAreFinal(cfg, w, l, w.calls[d].waiter);
    }
  }
}
