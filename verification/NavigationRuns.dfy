/** The navigation waiter over whole runs: which arming a reply goes back to, and what a timeout leaves in the slot. */
module NavigationRuns {
  import opened Wrappers
  import opened RedeemProtocol
  import opened RedeemSafety
  import opened NavigationWaiters
  import opened RedeemRuns

  // ---------------------------------------------------------------- the arming of a call

  /** The call waits on its channel, or has returned what came through it. */
  predicate Attends(p: Phase) {
    WaitsForNavigation(p) || Reports(p)
  }

  ghost predicate HasWaiter(w: World, c: CallId, id: WaiterId, armedAt: nat) {
    c in w.calls && w.calls[c].waiter == id && id < |w.waiters| && w.waiters[id].armedAt == armedAt
  }

  /** In this step the call arms its waiter: a fresh channel, in its surface's slot. */
  ghost predicate Arms(v: World, l: Label, w: World, c: CallId) {
    && l.Step? && l.c == c && c in v.calls && v.calls[c].phase.Announced? && c in w.calls && w.calls[c].phase.Armed?
    && HasWaiter(w, c, |v.waiters|, |v.events|)
    && w.calls[c].grant.surfaceId in w.navigation && w.navigation[w.calls[c].grant.surfaceId].slot == Some(|v.waiters|)
  }

  lemma ArmingArms(cfg: Config, v: World, c: CallId, input: Input)
    requires ChannelsSound(v) && Enabled(v, Step(c, input))
    requires Local(cfg, v.calls[c], See(v, v.calls[c]), input).phase.Armed?
    ensures Arms(v, Step(c, input), Next(cfg, v, Step(c, input)), c)
  {
    MovesByPhase(cfg, v.calls[c], See(v, v.calls[c]), input);
    var m := Local(cfg, v.calls[c], See(v, v.calls[c]), input);
    ArmChannels(Advance(v, c, m), c);
  }

  /** Moves that arm nothing keep the call's channel. */
  lemma MoveKeepsWaiter(v: World, c: CallId, m: Move, d: CallId, id: WaiterId, armedAt: nat)
    requires c in v.calls && HasWaiter(v, d, id, armedAt) && (d == c ==> m.op != ArmWaiter)
    ensures HasWaiter(Apply(v, c, m), d, id, armedAt)
  {
    ApplyFrame(v, c, m);
    MovesKeepOutcomes(v, c, m, id);
  }

  lemma EventKeepsWaiter(cfg: Config, v: World, l: Label, d: CallId, id: WaiterId, armedAt: nat)
    requires SlotsSound(v) && Enabled(v, l) && !l.Step? && HasWaiter(v, d, id, armedAt)
    ensures HasWaiter(Next(cfg, v, l), d, id, armedAt)
  {
    EnvironmentFrame(v, l);
    OutcomesAreFinal(cfg, v, l, id);
  }

  /** A waiting call that does not arm in its step was waiting before. */
  lemma WaitedBefore(cfg: Config, v: World, c: CallId, input: Input)
    requires Sound(cfg, v) && Enabled(v, Step(c, input))
    requires var p := Local(cfg, v.calls[c], See(v, v.calls[c]), input).phase;
             Attends(p) && !p.Armed?
    ensures WaitsForNavigation(v.calls[c].phase) && Local(cfg, v.calls[c], See(v, v.calls[c]), input).op != ArmWaiter
  {
    var call := v.calls[c];
    var seen := See(v, call);
    MovesByPhase(cfg, call, seen, input);
    PhasesAdvance(cfg, call, seen, input);
    if Local(cfg, call, seen, input).phase.Finished? {
      NavigationRepliesComeFromWaiting(cfg, call, seen, input, Project(v.log, c));
    }
  }

  /** What `c` waits for at the end of a step, it armed in that step or waited for before it, on the same channel. */
  ghost predicate SameWait(cfg: Config, v: World, l: Label, c: CallId)
    requires Enabled(v, l)
  {
    c in v.calls && Attends(v.calls[c].phase) && (l.Step? && l.c == c ==> MoveOf(cfg, v, l).op != ArmWaiter)
  }

  ghost function MoveOf(cfg: Config, v: World, l: Label): Move
    requires Enabled(v, l) && l.Step?
  {
    Local(cfg, v.calls[l.c], See(v, v.calls[l.c]), l.input)
  }

  lemma OwnStepAttends(cfg: Config, v: World, c: CallId, input: Input)
    requires Sound(cfg, v) && Enabled(v, Step(c, input)) && Attends(MoveOf(cfg, v, Step(c, input)).phase)
    ensures Arms(v, Step(c, input), Next(cfg, v, Step(c, input)), c) || SameWait(cfg, v, Step(c, input), c)
  {
    if MoveOf(cfg, v, Step(c, input)).phase.Armed? {
      ArmingArms(cfg, v, c, input);
    } else {
      WaitedBefore(cfg, v, c, input);
    }
  }

  lemma PhaseAfterOwnStep(cfg: Config, v: World, c: CallId, input: Input)
    requires Enabled(v, Step(c, input))
    ensures var w := Next(cfg, v, Step(c, input));
            c in w.calls && w.calls[c].phase == MoveOf(cfg, v, Step(c, input)).phase
  {
    ApplyFrame(v, c, MoveOf(cfg, v, Step(c, input)));
  }

  lemma OtherStepAttends(cfg: Config, v: World, l: Label, c: CallId)
    requires Enabled(v, l) && !(l.Step? && l.c == c)
    requires c in Next(cfg, v, l).calls && Attends(Next(cfg, v, l).calls[c].phase)
    ensures SameWait(cfg, v, l, c)
  {
    CallBefore(cfg, v, l, c);
  }

  lemma AttendedBefore(cfg: Config, v: World, l: Label, c: CallId)
    requires Sound(cfg, v) && Enabled(v, l) && c in Next(cfg, v, l).calls && Attends(Next(cfg, v, l).calls[c].phase)
    ensures Arms(v, l, Next(cfg, v, l), c) || SameWait(cfg, v, l, c)
  {
    if l.Step? && l.c == c {
      PhaseAfterOwnStep(cfg, v, c, l.input);
      OwnStepAttends(cfg, v, c, l.input);
    } else {
      OtherStepAttends(cfg, v, l, c);
    }
  }

  lemma SameWaitKeepsWaiter(cfg: Config, v: World, l: Label, c: CallId, id: WaiterId, armedAt: nat)
    requires SlotsSound(v) && Enabled(v, l) && SameWait(cfg, v, l, c) && HasWaiter(v, c, id, armedAt)
    ensures HasWaiter(Next(cfg, v, l), c, id, armedAt)
  {
    if l.Step? {
      MoveKeepsWaiter(v, l.c, MoveOf(cfg, v, l), c, id, armedAt);
    } else {
      EventKeepsWaiter(cfg, v, l, c, id, armedAt);
    }
  }

  /** Step `a` is the call's own arming, and at `n` it still has the channel it made then. */
  ghost predicate ArmedAt(worlds: seq<World>, labels: seq<Label>, a: nat, n: nat, c: CallId)
    requires n < |worlds| && |worlds| == |labels| + 1
  {
    && a < n && Arms(worlds[a], labels[a], worlds[a + 1], c)
    && HasWaiter(worlds[n], c, |worlds[a].waiters|, |worlds[a].events|)
  }

  /** A call that waits for its navigation, or has reported what came of it, armed its waiter at an earlier step of its
      own, and still has that channel. */
  lemma {:induction false} ArmedEarlier(cfg: Config, worlds: seq<World>, labels: seq<Label>, n: nat, c: CallId)
    returns (a: nat)
    requires IsRun(cfg, worlds, labels) && n < |worlds| && c in worlds[n].calls && Attends(worlds[n].calls[c].phase)
    ensures ArmedAt(worlds, labels, a, n, c)
  {
    assert n > 0;
    RunsAreSound(cfg, worlds, labels, n - 1);
    assert StepAt(cfg, worlds, labels, n - 1);
    AttendedBefore(cfg, worlds[n - 1], labels[n - 1], c);
    if Arms(worlds[n - 1], labels[n - 1], worlds[n], c) {
      a := n - 1;
    } else {
      a := ArmedEarlier(cfg, worlds, labels, n - 1, c);
      SameWaitKeepsWaiter(cfg, worlds[n - 1], labels[n - 1], c, |worlds[a].waiters|, |worlds[a].events|);
    }
  }

  // ---------------------------------------------------------------- what is reported

  /** A navigate call that reports success, a policy denial or a load failure reports the outcome of the first denied
      start or completion on its surface since the step in which it armed its waiter. */
  lemma NavigationReplyIsFirstEvent(cfg: Config, worlds: seq<World>, labels: seq<Label>, n: nat, c: CallId)
    returns (a: nat, o: NavigationOutcome)
    requires IsRun(cfg, worlds, labels) && n < |worlds| && c in worlds[n].calls && Reports(worlds[n].calls[c].phase)
    ensures ArmedAt(worlds, labels, a, n, c) && worlds[n].calls[c].phase.reply == ReplyFor(o)
    ensures FirstAfter(worlds[n].events, |worlds[a].events|, worlds[n].calls[c].grant.surfaceId, o)
  {
    a := ArmedEarlier(cfg, worlds, labels, n, c);
    RunsAreSound(cfg, worlds, labels, n);
    var w := worlds[n];
    assert ReplyGrounded(w, c);
    assert WaiterSound(w, w.calls[c].waiter);
    o := w.waiters[w.calls[c].waiter].outcome.value;
  }

  // ---------------------------------------------------------------- what a timeout leaves

  /** While a call waits, its sender is in the slot exactly while it is neither used nor dropped: on a surface that is
      alive, until the first event. */
  lemma SenderWaitsForAnEvent(w: World, c: CallId)
    requires ChannelsSound(w) && c in w.calls && WaitsForNavigation(w.calls[c].phase)
    ensures Attended(w, c)
    ensures var x := w.waiters[w.calls[c].waiter];
            && (SlotHolds(w, c) <==> x.outcome.None? && !x.closed)
            && (w.calls[c].grant.surfaceId in w.live ==>
                  (SlotHolds(w, c) <==> Quiet(w.events, x.armedAt, |w.events|, w.calls[c].grant.surfaceId)))
  {
    assert Attended(w, c);
    assert SlotSound(w, w.calls[c].grant.surfaceId);
    assert WaiterSound(w, w.calls[c].waiter);
  }

  predicate UnusedAt(w: World, id: WaiterId) {
    id < |w.waiters| && w.waiters[id].outcome.None? && !w.waiters[id].closed
  }

  /** The slot of the call's surface holds the call's own sender. */
  predicate SlotHolds(w: World, c: CallId)
    requires c in w.calls
  {
    var s := w.calls[c].grant.surfaceId;
    s in w.navigation && w.navigation[s].slot == Some(w.calls[c].waiter)
  }

  lemma TimeoutLeavesTheSlotAlone(cfg: Config, w: World, c: CallId, input: Input)
    requires Enabled(w, Step(c, input)) && w.calls[c].phase.Issued? && input.wait == Elapsed
    ensures var v := Next(cfg, w, Step(c, input));
            && c in v.calls && v.calls[c].phase == Finished(Refused(Timeout)) && v.calls[c].grant == w.calls[c].grant
            && (SlotHolds(v, c) <==> SlotHolds(w, c)) && v.live == w.live
  {
    var m := MoveOf(cfg, w, Step(c, input));
    ApplyFrame(w, c, m);
    OperateKeepsChannels(Advance(w, c, m), c, m.op);
  }

  /** A navigate call whose wait times out returns Timeout and leaves the slot as it is. Its sender stays there exactly
      when it was neither used nor dropped; on a surface that is alive, exactly when no denied start and no completion
      has come in since the call armed its waiter. */
  lemma ATimeoutLeavesTheSlotIff(cfg: Config, worlds: seq<World>, labels: seq<Label>, k: nat, c: CallId)
    returns (a: nat)
    requires IsRun(cfg, worlds, labels) && k < |labels| && c in worlds[k].calls && worlds[k].calls[c].phase.Issued?
    requires labels[k].Step? && labels[k].c == c && labels[k].input.wait == Elapsed
    ensures ArmedAt(worlds, labels, a, k, c)
    ensures var v := worlds[k + 1];
            && c in v.calls && v.calls[c].phase == Finished(Refused(Timeout))
            && (SlotHolds(v, c) <==> UnusedAt(worlds[k], |worlds[a].waiters|))
            && (v.calls[c].grant.surfaceId in v.live ==>
                  (SlotHolds(v, c)
                   <==> Quiet(worlds[k].events, |worlds[a].events|, |worlds[k].events|, v.calls[c].grant.surfaceId)))
  {
    a := ArmedEarlier(cfg, worlds, labels, k, c);
    RunsAreSound(cfg, worlds, labels, k);
    assert StepAt(cfg, worlds, labels, k);
    SenderWaitsForAnEvent(worlds[k], c);
    TimeoutLeavesTheSlotAlone(cfg, worlds[k], c, labels[k].input);
  }

  // ---------------------------------------------------------------- what events do

  /** The outcome that a denied start or a completion brings. */
  function Brought(l: Label): Option<NavigationOutcome> {
    match l
    case NavigationStarting(_, Deny(reason)) => Some(PolicyDenied(reason))
    case NavigationCompleted(_, outcome) => Some(outcome)
    case _ => None
  }

  lemma EventIsBrought(w: World, l: Label, c: CallId)
    requires SlotsSound(w) && Enabled(w, l) && !l.Step? && Brought(l).Some? && c in w.calls
    requires w.calls[c].grant.surfaceId == l.s && SlotHolds(w, c)
    ensures var v := Environment(w, l);
            && c in v.calls && v.calls[c] == w.calls[c] && !SlotHolds(v, c)
            && w.calls[c].waiter < |v.waiters| && v.waiters[w.calls[c].waiter].outcome == Brought(l)
  {
    assert SlotSound(w, l.s);
  }

  lemma {:induction false} OutcomeStays(
    cfg: Config, worlds: seq<World>, labels: seq<Label>, k: nat, n: nat, id: WaiterId, o: NavigationOutcome)
    requires IsRun(cfg, worlds, labels) && k <= n < |worlds|
    requires id < |worlds[k].waiters| && worlds[k].waiters[id].outcome == Some(o)
    ensures id < |worlds[n].waiters| && worlds[n].waiters[id].outcome == Some(o)
    decreases n - k
  {
    if k < n {
      OutcomeStays(cfg, worlds, labels, k, n - 1, id, o);
      RunsAreSound(cfg, worlds, labels, n - 1);
      assert StepAt(cfg, worlds, labels, n - 1);
      OutcomesAreFinal(cfg, worlds[n - 1], labels[n - 1], id);
    }
  }

  /** In every run a denied start or a completion on the surface of a waiting call whose sender is in the slot goes
      through that sender: the call has the outcome from then on, and the slot is empty. */
  lemma EventsReachTheWaiter(cfg: Config, worlds: seq<World>, labels: seq<Label>, k: nat, n: nat, c: CallId)
    requires IsRun(cfg, worlds, labels) && k < n < |worlds| && c in worlds[k].calls && SlotHolds(worlds[k], c)
    requires Brought(labels[k]).Some? && labels[k].s == worlds[k].calls[c].grant.surfaceId
    ensures c in worlds[k + 1].calls && !SlotHolds(worlds[k + 1], c)
    ensures worlds[k].calls[c].waiter < |worlds[n].waiters|
            && worlds[n].waiters[worlds[k].calls[c].waiter].outcome == Brought(labels[k])
  {
    RunsAreSound(cfg, worlds, labels, k);
    assert StepAt(cfg, worlds, labels, k);
    EventIsBrought(worlds[k], labels[k], c);
    OutcomeStays(cfg, worlds, labels, k + 1, n, worlds[k].calls[c].waiter, Brought(labels[k]).value);
  }
}
