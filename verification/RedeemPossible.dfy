/** The protocol is not safe by refusing everything: a valid grant of any capability can be carried out. */
module RedeemPossible {
  import opened Wrappers
  import opened BackendEncoding
  import opened GrantParameters
  import opened GrantPayload
  import opened ProfileKeys
  import opened RedeemProtocol
  import opened RedeemSafety
  import opened RedeemRuns
  import opened RedeemSpec
  import NavigationPolicy

  /** A call and what it is made with, at one time, with the ids marked, the log written and the calls made
      before it arrived. */
  datatype Case = Case(
    c: CallId,
    grant: Grant,
    signature: string,
    params: Params,
    now: int,
    marked: set<string>,
    past: seq<Item>,
    others: map<CallId, Call>)

  /** A signed, current grant with parameters that fit it and can be honoured, not used yet, for any generation a
      64-bit counter can have. */
  ghost predicate Valid(cfg: Config, x: Case) {
    && cfg.verifies(CanonicalPayload(x.grant), x.signature)
    && Current(cfg, x.grant, x.now)
    && x.grant.capability == CapabilityOf(x.params)
    && cfg.digest(RequestText(TargetOf(x.grant), x.params)) == x.grant.parametersHash
    && !(x.params.Screenshot? && x.params.fullPage) && SelectorsUsable(x.params)
    && x.grant.grantId !in x.marked
    && Generation(x.grant) < GENERATIONS
  }

  function Key(g: Grant): ProfileKey {
    ProfileKey(g.tenantId, g.profileId)
  }

  function Generation(g: Grant): nat {
    if g.generation.Some? then g.generation.value else 0
  }

  /** The grant's surface is there, as often navigated as the grant says. */
  predicate Present(w: World, g: Grant) {
    g.surfaceId in w.live && g.surfaceId in w.navigation && w.navigation[g.surfaceId].generation == Generation(g)
  }

  /** The surface is bound to the grant's profile, and that is the active one. */
  predicate Shown(w: World, g: Grant) {
    g.surfaceId in w.bindings && w.bindings[g.surfaceId] == Key(g) && w.active == Some(Key(g))
  }

  /** Only this call's lock is held, while it is inside; only what was marked before and, once it is past that, its own
      grant are marked; and the other calls are as they were. */
  predicate Alone(w: World, x: Case, p: Phase)
    requires x.c in w.calls
  {
    && w.holder == (if InSection(p) then map[w.calls[x.c].lock := x.c] else map[])
    && w.markedBy.Keys == x.marked + (if BeforeMark(p) then {} else {x.grant.grantId})
    && w.calls - {x.c} == x.others
  }

  /** The call stands at `p` with everything as its grant wants it, and has logged `acts`. */
  ghost predicate Standing(w: World, x: Case, p: Phase, acts: seq<Act>) {
    && x.c in w.calls && w.calls[x.c].grant == x.grant && w.calls[x.c].signature == x.signature
    && w.calls[x.c].params == Some(x.params) && w.calls[x.c].phase == p
    && Present(w, x.grant) && Shown(w, x.grant) && Alone(w, x, p)
    && x.past <= w.log && Project(w.log, x.c) == acts
  }

  /** A step in which the platform succeeds and what is waited for, if anything, is this. */
  function Answer(x: Case, wait: Wait): Label {
    Step(x.c, Input(x.now, true, wait))
  }

  ghost function Moved(cfg: Config, w: World, x: Case, wait: Wait): Move
    requires Enabled(w, Answer(x, wait))
  {
    Local(cfg, w.calls[x.c], See(w, w.calls[x.c]), Input(x.now, true, wait))
  }

  /** The operation fits the phases it leads between. */
  predicate Leads(m: Move, p: Phase) {
    && m.op != ArmWaiter
    && (m.op == TakeLock <==> !InSection(p) && InSection(m.phase))
    && (m.op == ReleaseLock <==> InSection(p) && !InSection(m.phase))
    && (m.op == RequestLock ==> !InSection(p))
    && (m.op == MarkId <==> p == TimeOk)
    && (m.phase in {SignatureOk, TimeOk} ==> p in {Fresh, SignatureOk}) && m.phase != Fresh
    && (p in {Fresh, SignatureOk} ==> m.phase in {SignatureOk, TimeOk})
  }

  lemma StepStaysAlone(w: World, x: Case, m: Move)
    requires x.c in w.calls && w.calls[x.c].grant == x.grant && Alone(w, x, w.calls[x.c].phase)
    requires Leads(m, w.calls[x.c].phase)
    ensures x.c in Apply(w, x.c, m).calls && Alone(Apply(w, x.c, m), x, m.phase)
  {
    LockFollowsPhase(w, x, m);
    MarksFollowPhase(w, x, m);
    OthersStay(w, x.c, m);
  }

  predicate BeforeMark(p: Phase) {
    p.Fresh? || p.SignatureOk? || p.TimeOk?
  }

  lemma MarksFollowPhase(w: World, x: Case, m: Move)
    requires x.c in w.calls && w.calls[x.c].grant == x.grant && Leads(m, w.calls[x.c].phase)
    requires w.markedBy.Keys == x.marked + if BeforeMark(w.calls[x.c].phase) then {} else {x.grant.grantId}
    ensures Apply(w, x.c, m).markedBy.Keys == x.marked + if BeforeMark(m.phase) then {} else {x.grant.grantId}
  {
    MarksAfter(w, x.c, m);
  }

  lemma OthersStay(w: World, c: CallId, m: Move)
    requires c in w.calls
    ensures Apply(w, c, m).calls - {c} == w.calls - {c}
  {
    ApplyFrame(w, c, m);
  }

  lemma LockFollowsPhase(w: World, x: Case, m: Move)
    requires x.c in w.calls && Leads(m, w.calls[x.c].phase)
    requires w.holder == if InSection(w.calls[x.c].phase) then map[w.calls[x.c].lock := x.c] else map[]
    ensures var v := Apply(w, x.c, m);
            x.c in v.calls && v.holder == if InSection(m.phase) then map[v.calls[x.c].lock := x.c] else map[]
  {
    ApplyFrame(w, x.c, m);
    HolderAfter(w, x.c, m);
  }

  lemma MarksAfter(w: World, c: CallId, m: Move)
    requires c in w.calls
    ensures Apply(w, c, m).markedBy
            == if m.op == MarkId then w.markedBy[w.calls[c].grant.grantId := c] else w.markedBy
  {}

  lemma StepLeavesChannels(w: World, c: CallId, m: Move)
    requires c in w.calls && m.op != ArmWaiter
    ensures var v := Apply(w, c, m);
            && v.navigation == w.navigation && v.waiters == w.waiters
            && c in v.calls && v.calls[c].waiter == w.calls[c].waiter
  {
    ApplyFrame(w, c, m);
  }

  /** A step of the call that arms nothing leaves its surroundings as they are. */
  lemma StepStands(cfg: Config, w: World, x: Case, wait: Wait, p: Phase, acts: seq<Act>)
    requires Enabled(w, Answer(x, wait)) && Standing(w, x, p, acts) && Leads(Moved(cfg, w, x, wait), p)
    ensures var m := Moved(cfg, w, x, wait);
            var v := Next(cfg, w, Answer(x, wait));
            && Standing(v, x, m.phase, acts + m.acts)
            && v.navigation == w.navigation && v.waiters == w.waiters && v.calls[x.c].waiter == w.calls[x.c].waiter
  {
    var m := Moved(cfg, w, x, wait);
    ApplyFrame(w, x.c, m);
    ApplyLogs(w, x.c, m);
    ProjectApply(w, x.c, m, x.c);
    StepLeavesChannels(w, x.c, m);
    StepStaysAlone(w, x, m);
  }

  // ---------------------------------------------------------------- the checks pass

  ghost function Plan(x: Case): Effect
    requires SelectorsUsable(x.params)
  {
    EffectOf(x.grant.surfaceId, x.params)
  }

  /** The move of a valid call from each phase before it begins its effect. */
  ghost function Expected(x: Case, p: Phase): Move
    requires SelectorsUsable(x.params)
  {
    match p
    case Fresh => Go(SignatureOk)
    case SignatureOk => Go(TimeOk)
    case TimeOk => Move(Marked, [], MarkId)
    case Marked => Move(Queued, [], RequestLock)
    case Queued => Move(Inside, [], TakeLock)
    case Inside => Go(SurfaceOk)
    case SurfaceOk => Go(BindingOk)
    case BindingOk => Go(ActiveOk)
    case ActiveOk => Go(GenerationOk)
    case GenerationOk => Move(Admitted, [Audited(Redeemed)], Nothing)
    case Admitted => Go(Vetted(Plan(x)))
    case _ => Move(Announced(Plan(x)), [Audited(Started)], Nothing)
  }

  /** The moves still to make until then. */
  function Remaining(p: Phase): nat {
    match p
    case Fresh => 12
    case SignatureOk => 11
    case TimeOk => 10
    case Marked => 9
    case Queued => 8
    case Inside => 7
    case SurfaceOk => 6
    case BindingOk => 5
    case ActiveOk => 4
    case GenerationOk => 3
    case Admitted => 2
    case Vetted(_) => 1
    case _ => 0
  }

  lemma ChecksPass(cfg: Config, w: World, x: Case, p: Phase, acts: seq<Act>)
    requires Valid(cfg, x) && Standing(w, x, p, acts) && Remaining(p) > 0 && (p.Vetted? ==> p.plan == Plan(x))
    ensures Enabled(w, Answer(x, Resolved)) && Moved(cfg, w, x, Resolved) == Expected(x, p)
  {
    if p == Admitted {
      VetPasses(cfg, w.calls[x.c], x);
    } else if Remaining(p) >= 8 {
      CurrentIsInTime(cfg, x.grant, x.now);
      BeforeInside(cfg, w, x, p, acts);
    } else {
      AfterInside(cfg, w, x, p, acts);
    }
  }

  lemma CurrentIsInTime(cfg: Config, g: Grant, now: int)
    requires Current(cfg, g, now)
    ensures TimeVerdict(cfg, g, now) == None
  {}

  lemma BeforeInside(cfg: Config, w: World, x: Case, p: Phase, acts: seq<Act>)
    requires Standing(w, x, p, acts) && Remaining(p) >= 8 && SelectorsUsable(x.params)
    requires cfg.verifies(CanonicalPayload(x.grant), x.signature) && TimeVerdict(cfg, x.grant, x.now) == None
    requires x.grant.grantId !in x.marked
    ensures Enabled(w, Answer(x, Resolved)) && Moved(cfg, w, x, Resolved) == Expected(x, p)
  {}

  lemma AfterInside(cfg: Config, w: World, x: Case, p: Phase, acts: seq<Act>)
    requires Standing(w, x, p, acts) && 0 < Remaining(p) < 8 && p != Admitted && SelectorsUsable(x.params)
    requires p.Vetted? ==> p.plan == Plan(x)
    ensures Enabled(w, Answer(x, Resolved)) && Moved(cfg, w, x, Resolved) == Expected(x, p)
  {}

  lemma VetPasses(cfg: Config, call: Call, x: Case)
    requires Valid(cfg, x) && call.grant == x.grant && call.params == Some(x.params)
    ensures Vet(cfg, call) == Go(Vetted(Plan(x)))
  {
    CapabilitiesAreExecutable(x.params);
    UsableIsVetted(cfg, call, x.params);
  }

  lemma CapabilitiesAreExecutable(params: Params)
    ensures CapabilityOf(params) in EXECUTABLE
  {}

  lemma UsableIsVetted(cfg: Config, call: Call, params: Params)
    requires call.grant.capability in EXECUTABLE && call.params == Some(params)
    requires CapabilityOf(params) == call.grant.capability && HashMatches(cfg, call)
    requires !(params.Screenshot? && params.fullPage) && SelectorsUsable(params)
    ensures Vet(cfg, call) == Go(Vetted(EffectOf(call.grant.surfaceId, params)))
  {}

  function Last(worlds: seq<World>): World
    requires worlds != []
  {
    worlds[|worlds| - 1]
  }

  /** A run one step longer. */
  lemma Extend(cfg: Config, worlds0: seq<World>, labels0: seq<Label>, l: Label)
    returns (worlds: seq<World>, labels: seq<Label>)
    requires IsRun(cfg, worlds0, labels0) && Enabled(Last(worlds0), l)
    ensures IsRun(cfg, worlds, labels) && Last(worlds) == Next(cfg, Last(worlds0), l)
    ensures worlds0 <= worlds && labels == labels0 + [l]
  {
    worlds, labels := worlds0 + [Next(cfg, Last(worlds0), l)], labels0 + [l];
    forall i: nat | i < |labels| ensures StepAt(cfg, worlds, labels, i) {
      if i < |labels0| {
        assert StepAt(cfg, worlds0, labels0, i);
      }
    }
  }

  /** What a valid call has logged when it stands at `p`. */
  function LoggedAt(p: Phase): seq<Act> {
    if p.Admitted? || p.Vetted? then [Audited(Redeemed)]
    else if p.Announced? then ANNOUNCED
    else []
  }

  const ANNOUNCED := [Audited(Redeemed), Audited(Started)]

  lemma ExpectedLogs(x: Case, p: Phase)
    requires SelectorsUsable(x.params) && Remaining(p) > 0
    ensures var m := Expected(x, p);
            && Leads(m, p)
            && LoggedAt(p) + m.acts == LoggedAt(m.phase) && Remaining(m.phase) == Remaining(p) - 1
            && (m.phase.Vetted? || m.phase.Announced? ==> m.phase.plan == Plan(x))
            && (Remaining(m.phase) == 0 ==> m.phase.Announced?)
  {}

  lemma OneMore(cfg: Config, w: World, x: Case, p: Phase)
    requires Valid(cfg, x) && Standing(w, x, p, LoggedAt(p)) && Remaining(p) > 0 && (p.Vetted? ==> p.plan == Plan(x))
    ensures Enabled(w, Answer(x, Resolved))
    ensures var q := Expected(x, p).phase;
            Standing(Next(cfg, w, Answer(x, Resolved)), x, q, LoggedAt(q))
  {
    ChecksPass(cfg, w, x, p, LoggedAt(p));
    ExpectedLogs(x, p);
    StepStands(cfg, w, x, Resolved, p, LoggedAt(p));
  }

  /** From any phase before it, the call reaches the point where it is about to begin its effect. */
  lemma {:induction false} ReachesAnnounced(cfg: Config, worlds0: seq<World>, labels0: seq<Label>, x: Case, p: Phase)
    returns (worlds: seq<World>, labels: seq<Label>)
    requires IsRun(cfg, worlds0, labels0) && Valid(cfg, x)
    requires Standing(Last(worlds0), x, p, LoggedAt(p)) && Remaining(p) > 0 && (p.Vetted? ==> p.plan == Plan(x))
    ensures IsRun(cfg, worlds, labels) && Standing(Last(worlds), x, Announced(Plan(x)), ANNOUNCED)
    decreases Remaining(p)
  {
    OneMore(cfg, Last(worlds0), x, p);
    worlds, labels := Extend(cfg, worlds0, labels0, Answer(x, Resolved));
    ExpectedLogs(x, p);
    var q := Expected(x, p).phase;
    if Remaining(q) > 0 {
      worlds, labels := ReachesAnnounced(cfg, worlds, labels, x, q);
    }
  }

  // ---------------------------------------------------------------- the effect

  /** The call's own sender is in its surface's slot, unused. */
  predicate Listening(w: World, x: Case) {
    var s := x.grant.surfaceId;
    && x.c in w.calls && s in w.navigation && w.navigation[s].slot == Some(w.calls[x.c].waiter)
    && w.calls[x.c].waiter < |w.waiters| && w.waiters[w.calls[x.c].waiter].outcome == None
  }

  lemma ArmingListens(w: World, x: Case, m: Move)
    requires x.c in w.calls && w.calls[x.c].grant == x.grant && Present(w, x.grant) && m.op == ArmWaiter
    ensures Present(Apply(w, x.c, m), x.grant) && Listening(Apply(w, x.c, m), x)
  {}

  lemma ArmingKeepsBindings(w: World, c: CallId, m: Move)
    requires c in w.calls && m.op == ArmWaiter
    ensures var v := Apply(w, c, m);
            v.bindings == w.bindings && v.active == w.active && v.holder == w.holder && v.markedBy == w.markedBy
  {}

  lemma Arms(cfg: Config, w: World, x: Case, plan: Effect, acts: seq<Act>)
    requires plan.NavigateTo? && Standing(w, x, Announced(plan), acts)
    ensures Enabled(w, Answer(x, Resolved))
    ensures var v := Next(cfg, w, Answer(x, Resolved));
            Standing(v, x, Armed(plan), acts) && Listening(v, x)
  {
    var m := Moved(cfg, w, x, Resolved);
    assert m == Move(Armed(plan), [], ArmWaiter);
    ApplyFrame(w, x.c, m);
    ApplyLogs(w, x.c, m);
    ArmingListens(w, x, m);
    ArmingKeepsBindings(w, x.c, m);
    assert w.log + Tag(x.c, []) == w.log;
  }

  lemma Issues(cfg: Config, w: World, x: Case, plan: Effect, acts: seq<Act>)
    requires Standing(w, x, Armed(plan), acts) && Listening(w, x)
    ensures Enabled(w, Answer(x, Resolved))
    ensures var v := Next(cfg, w, Answer(x, Resolved));
            Standing(v, x, Issued(plan), acts + [Performed(plan)]) && Listening(v, x)
  {
    StepStands(cfg, w, x, Resolved, Armed(plan), acts);
  }

  lemma Arrives(w: World, x: Case, plan: Effect, acts: seq<Act>)
    requires Standing(w, x, Issued(plan), acts) && Listening(w, x)
    ensures Enabled(w, NavigationCompleted(x.grant.surfaceId, Arrived))
    ensures var v := Environment(w, NavigationCompleted(x.grant.surfaceId, Arrived));
            && Standing(v, x, Issued(plan), acts)
            && v.calls[x.c].waiter < |v.waiters| && v.waiters[v.calls[x.c].waiter].outcome == Some(Arrived)
  {}

  /** What ends the wait of an effect well. */
  function GoodEnd(plan: Effect): Wait {
    match plan
    case NavigateTo(_, _) => Resolved
    case Capture(_) => CaptureDone
    case Submit(_, _) => UiaDone(KindOf(plan))
  }

  predicate WaitsFor(p: Phase, plan: Effect) {
    || (plan.NavigateTo? && p == Issued(plan))
    || (plan.Capture? && p == Capturing(plan))
    || (plan.Submit? && p == Submitted(plan))
  }

  /** What a carried-out call has logged after `acts`. */
  function Done(plan: Effect, acts: seq<Act>): seq<Act> {
    acts + [Performed(plan)] + [Audited(Succeeded)]
  }

  lemma Succeeds(cfg: Config, w: World, x: Case, plan: Effect, p: Phase, acts: seq<Act>)
    requires Standing(w, x, p, acts) && WaitsFor(p, plan)
    requires plan.NavigateTo? ==>
      w.calls[x.c].waiter < |w.waiters| && w.waiters[w.calls[x.c].waiter].outcome == Some(Arrived)
    ensures Enabled(w, Answer(x, GoodEnd(plan)))
    ensures var v := Next(cfg, w, Answer(x, GoodEnd(plan)));
            Standing(v, x, Finished(Executed(KindOf(plan))), acts + [Audited(Succeeded)])
  {
    assert Moved(cfg, w, x, GoodEnd(plan)) == Succeed(KindOf(plan));
    StepStands(cfg, w, x, GoodEnd(plan), p, acts);
  }

  /** The navigation is under way and nothing has come of it yet. */
  lemma Navigates(cfg: Config, worlds0: seq<World>, labels0: seq<Label>, x: Case, plan: Effect, acts: seq<Act>)
    returns (worlds: seq<World>, labels: seq<Label>)
    requires IsRun(cfg, worlds0, labels0) && plan.NavigateTo? && Standing(Last(worlds0), x, Announced(plan), acts)
    ensures IsRun(cfg, worlds, labels)
    ensures Standing(Last(worlds), x, Issued(plan), acts + [Performed(plan)]) && Listening(Last(worlds), x)
  {
    Arms(cfg, Last(worlds0), x, plan, acts);
    worlds, labels := Extend(cfg, worlds0, labels0, Answer(x, Resolved));
    Issues(cfg, Last(worlds), x, plan, acts);
    worlds, labels := Extend(cfg, worlds, labels, Answer(x, Resolved));
  }

  lemma NavigatesWell(cfg: Config, worlds0: seq<World>, labels0: seq<Label>, x: Case, plan: Effect, acts: seq<Act>)
    returns (worlds: seq<World>, labels: seq<Label>)
    requires IsRun(cfg, worlds0, labels0) && plan.NavigateTo? && Standing(Last(worlds0), x, Announced(plan), acts)
    ensures IsRun(cfg, worlds, labels)
    ensures Standing(Last(worlds), x, Finished(Executed(KindOf(plan))), Done(plan, acts))
  {
    worlds, labels := Navigates(cfg, worlds0, labels0, x, plan, acts);
    var more := acts + [Performed(plan)];
    Arrives(Last(worlds), x, plan, more);
    worlds, labels := Extend(cfg, worlds, labels, NavigationCompleted(x.grant.surfaceId, Arrived));
    Succeeds(cfg, Last(worlds), x, plan, Issued(plan), more);
    worlds, labels := Extend(cfg, worlds, labels, Answer(x, Resolved));
  }

  lemma BeginsCapture(cfg: Config, w: World, x: Case, plan: Effect, acts: seq<Act>)
    requires plan.Capture? && Standing(w, x, Announced(plan), acts)
    ensures Enabled(w, Answer(x, Resolved))
    ensures Standing(Next(cfg, w, Answer(x, Resolved)), x, Capturing(plan), acts + [Performed(plan)])
  {
    StepStands(cfg, w, x, Resolved, Announced(plan), acts);
  }

  lemma Captures(cfg: Config, worlds0: seq<World>, labels0: seq<Label>, x: Case, plan: Effect, acts: seq<Act>)
    returns (worlds: seq<World>, labels: seq<Label>)
    requires IsRun(cfg, worlds0, labels0) && plan.Capture? && Standing(Last(worlds0), x, Announced(plan), acts)
    ensures IsRun(cfg, worlds, labels)
    ensures Standing(Last(worlds), x, Finished(Executed(KindOf(plan))), Done(plan, acts))
  {
    BeginsCapture(cfg, Last(worlds0), x, plan, acts);
    worlds, labels := Extend(cfg, worlds0, labels0, Answer(x, Resolved));
    Succeeds(cfg, Last(worlds), x, plan, Capturing(plan), acts + [Performed(plan)]);
    worlds, labels := Extend(cfg, worlds, labels, Answer(x, GoodEnd(plan)));
  }

  lemma FindsWindow(cfg: Config, w: World, x: Case, plan: Effect, acts: seq<Act>)
    requires plan.Submit? && Standing(w, x, Announced(plan), acts)
    ensures Enabled(w, Answer(x, Resolved))
    ensures Standing(Next(cfg, w, Answer(x, Resolved)), x, Rooted(plan), acts)
  {
    StepStands(cfg, w, x, Resolved, Announced(plan), acts);
    assert acts + [] == acts;
  }

  lemma Submits(cfg: Config, w: World, x: Case, plan: Effect, acts: seq<Act>)
    requires Standing(w, x, Rooted(plan), acts)
    ensures Enabled(w, Answer(x, Resolved))
    ensures Standing(Next(cfg, w, Answer(x, Resolved)), x, Submitted(plan), acts + [Performed(plan)])
  {
    StepStands(cfg, w, x, Resolved, Rooted(plan), acts);
  }

  lemma Operates(cfg: Config, worlds0: seq<World>, labels0: seq<Label>, x: Case, plan: Effect, acts: seq<Act>)
    returns (worlds: seq<World>, labels: seq<Label>)
    requires IsRun(cfg, worlds0, labels0) && plan.Submit? && Standing(Last(worlds0), x, Announced(plan), acts)
    ensures IsRun(cfg, worlds, labels)
    ensures Standing(Last(worlds), x, Finished(Executed(KindOf(plan))), Done(plan, acts))
  {
    FindsWindow(cfg, Last(worlds0), x, plan, acts);
    worlds, labels := Extend(cfg, worlds0, labels0, Answer(x, Resolved));
    Submits(cfg, Last(worlds), x, plan, acts);
    worlds, labels := Extend(cfg, worlds, labels, Answer(x, Resolved));
    Succeeds(cfg, Last(worlds), x, plan, Submitted(plan), acts + [Performed(plan)]);
    worlds, labels := Extend(cfg, worlds, labels, Answer(x, GoodEnd(plan)));
  }

  lemma CarriesOut(cfg: Config, worlds0: seq<World>, labels0: seq<Label>, x: Case, plan: Effect, acts: seq<Act>)
    returns (worlds: seq<World>, labels: seq<Label>)
    requires IsRun(cfg, worlds0, labels0) && Standing(Last(worlds0), x, Announced(plan), acts)
    ensures IsRun(cfg, worlds, labels)
    ensures Standing(Last(worlds), x, Finished(Executed(KindOf(plan))), Done(plan, acts))
  {
    match plan
    case NavigateTo(_, _) => worlds, labels := NavigatesWell(cfg, worlds0, labels0, x, plan, acts);
    case Capture(_) => worlds, labels := Captures(cfg, worlds0, labels0, x, plan, acts);
    case Submit(_, _) => worlds, labels := Operates(cfg, worlds0, labels0, x, plan, acts);
  }

  // ---------------------------------------------------------------- from the start

  /** The surface is navigated `n` times. */
  lemma {:induction false} NavigatedBefore(cfg: Config, worlds0: seq<World>, labels0: seq<Label>, s: string, n: nat)
    returns (worlds: seq<World>, labels: seq<Label>)
    requires IsRun(cfg, worlds0, labels0) && n < GENERATIONS
    requires s in Last(worlds0).navigation && Last(worlds0).navigation[s].generation == 0
    ensures IsRun(cfg, worlds, labels)
    ensures var w := Last(worlds0);
            Last(worlds) == w.(navigation := w.navigation[s := w.navigation[s].(generation := n)])
  {
    if n == 0 {
      worlds, labels := worlds0, labels0;
      assert Last(worlds0).navigation[s := Last(worlds0).navigation[s].(generation := 0)] == Last(worlds0).navigation;
    } else {
      worlds, labels := NavigatedBefore(cfg, worlds0, labels0, s, n - 1);
      worlds, labels := Extend(cfg, worlds, labels, NavigationStarting(s, NavigationPolicy.Allow));
    }
  }

  /** In a world with the surface and no call inside, it is bound and shown, and the call arrives. */
  lemma Arrange(cfg: Config, worlds0: seq<World>, labels0: seq<Label>, x: Case)
    returns (worlds: seq<World>, labels: seq<Label>)
    requires IsRun(cfg, worlds0, labels0)
    requires var w := Last(worlds0);
             && Present(w, x.grant) && w.holder == map[] && w.markedBy.Keys == x.marked && x.past == w.log
             && x.c !in w.calls && x.others == w.calls
    requires Project(Last(worlds0).log, x.c) == []
    ensures IsRun(cfg, worlds, labels) && Standing(Last(worlds), x, Fresh, LoggedAt(Fresh))
  {
    worlds, labels := Extend(cfg, worlds0, labels0, Bind(x.grant.surfaceId, Key(x.grant)));
    worlds, labels := Extend(cfg, worlds, labels, SetActive(Some(Key(x.grant))));
    worlds, labels := Extend(cfg, worlds, labels, Spawn(x.c, x.grant, x.signature, Some(x.params)));
  }

  /** The surface is made and navigated as often as the grant claims. */
  lemma Prepare(cfg: Config, g: Grant) returns (worlds: seq<World>, labels: seq<Label>)
    requires Generation(g) < GENERATIONS
    ensures IsRun(cfg, worlds, labels)
    ensures var w := Last(worlds);
            Present(w, g) && w.holder == map[] && w.markedBy == map[] && w.log == [] && w.calls == map[]
  {
    worlds, labels := [World(map[], map[], 0, map[], {}, map[], map[], None, [], [], [], map[])], [];
    worlds, labels := Extend(cfg, worlds, labels, CreateSurface(g.surfaceId));
    worlds, labels := NavigatedBefore(cfg, worlds, labels, g.surfaceId, Generation(g));
  }

  /** A call that is the first of its run. */
  ghost predicate First(x: Case) {
    x.c == 0 && x.marked == {} && x.past == [] && x.others == map[]
  }

  lemma FirstIsAnnounced(cfg: Config, x: Case) returns (worlds: seq<World>, labels: seq<Label>)
    requires Valid(cfg, x) && First(x)
    ensures IsRun(cfg, worlds, labels) && Standing(Last(worlds), x, Announced(Plan(x)), ANNOUNCED)
  {
    worlds, labels := Prepare(cfg, x.grant);
    worlds, labels := Arrange(cfg, worlds, labels, x);
    worlds, labels := ReachesAnnounced(cfg, worlds, labels, x, Fresh);
  }

  /** The log of a call that was carried out. */
  lemma Trace(plan: Effect)
    ensures Done(plan, ANNOUNCED) == [Audited(Redeemed), Audited(Started), Performed(plan), Audited(Succeeded)]
  {}

  /** Every valid grant, of any of the six capabilities and for any generation, has a run in which it is carried out:
      the effect its parameters ask for is performed, its result is returned, and the log of the call is Redeemed,
      Started, the effect, Succeeded. */
  lemma AValidGrantCanBeCarriedOut(cfg: Config, x: Case)
    returns (worlds: seq<World>, labels: seq<Label>, effect: Effect, kind: Kind)
    requires Valid(cfg, x) && First(x)
    ensures IsRun(cfg, worlds, labels) && Asks(x.params, x.grant.surfaceId, effect) && KindFor(kind, x.params)
    ensures 0 in Last(worlds).calls && Last(worlds).calls[0].grant == x.grant
    ensures Last(worlds).calls[0].phase == Finished(Executed(kind))
    ensures Project(Last(worlds).log, 0)
            == [Audited(Redeemed), Audited(Started), Performed(effect), Audited(Succeeded)]
  {
    worlds, labels := FirstIsAnnounced(cfg, x);
    effect, kind := Plan(x), KindOf(Plan(x));
    worlds, labels := CarriesOut(cfg, worlds, labels, x, effect, ANNOUNCED);
    Trace(effect);
    EffectIsAsked(x.params, x.grant.surfaceId);
  }

  /** In particular a grant the backend minted for a request without a character above U+007E. */
  lemma AMintedPlainRequestIsValid(cfg: Config, x: Case)
    requires cfg.verifies(CanonicalPayload(x.grant), x.signature) && Current(cfg, x.grant, x.now)
    requires x.grant.capability == CapabilityOf(x.params)
    requires x.grant.parametersHash == cfg.digest(BackendText(TargetOf(x.grant), x.params))
    requires !(x.params.Screenshot? && x.params.fullPage) && SelectorsUsable(x.params)
    requires x.grant.grantId !in x.marked && Generation(x.grant) < GENERATIONS
    requires CollisionFree(cfg.digest)
    ensures Valid(cfg, x) <==> PlainRequest(TargetOf(x.grant), x.params)
  {
    DesktopAndBackendHashesAgree(cfg.digest, TargetOf(x.grant), x.params);
  }

  // ---------------------------------------------------------------- a timeout

  /** A navigate call times out with its sender still in the slot. */
  lemma ATimeoutLeavesTheSender(cfg: Config, x: Case) returns (worlds: seq<World>, labels: seq<Label>)
    requires x.params.Navigate? && Valid(cfg, x) && First(x)
    ensures IsRun(cfg, worlds, labels)
    ensures 0 in Last(worlds).calls && Last(worlds).calls[0].phase == Finished(Refused(Timeout))
    ensures Listening(Last(worlds), x)
  {
    worlds, labels := FirstIsAnnounced(cfg, x);
    worlds, labels := Navigates(cfg, worlds, labels, x, Plan(x), ANNOUNCED);
    TimesOut(cfg, Last(worlds), x, Plan(x), ANNOUNCED + [Performed(Plan(x))]);
    worlds, labels := Extend(cfg, worlds, labels, Answer(x, Elapsed));
  }

  lemma TimesOut(cfg: Config, w: World, x: Case, plan: Effect, acts: seq<Act>)
    requires Standing(w, x, Issued(plan), acts) && Listening(w, x)
    ensures Enabled(w, Answer(x, Elapsed))
    ensures var v := Next(cfg, w, Answer(x, Elapsed));
            Standing(v, x, Finished(Refused(Timeout)), acts + [Audited(Failed)]) && Listening(v, x)
  {
    assert Moved(cfg, w, x, Elapsed) == Fail(Timeout);
    StepStands(cfg, w, x, Elapsed, Issued(plan), acts);
  }

  // ---------------------------------------------------------------- one signature, two grants

  /** A colon in a grant's id can be read as the one that ends the id. */
  function Reread(g: Grant, id: string, more: string): Grant {
    g.(grantId := id, tenantId := more + ":" + g.tenantId)
  }

  /** The other reading is another grant with the same signed bytes. */
  lemma RereadingKeepsTheBytes(g: Grant, id: string, more: string)
    requires g.grantId == id + ":" + more
    ensures CanonicalPayload(Reread(g, id, more)) == CanonicalPayload(g) && id != g.grantId
  {
    var h := Reread(g, id, more);
    JoinFirstTwo(Parts(g));
    JoinFirstTwo(Parts(h));
    assert Parts(g)[2..] == Parts(h)[2..];
    assert (id + ":" + more) + ":" + g.tenantId == id + ":" + (more + ":" + g.tenantId);
    assert |id| < |g.grantId|;
  }

  lemma JoinFirstTwo(parts: seq<string>)
    requires |parts| == 10
    ensures Join(parts) == (parts[0] + ":" + parts[1]) + ":" + Join(parts[2..])
  {
    JoinTwo(parts);
    JoinTwo(parts[1..]);
    assert parts[1..][1..] == parts[2..];
  }

  /** A call with the other reading of the first call's grant, made after it. */
  function Second(x: Case, id: string, more: string, w: World): Case {
    x.(c := 1, grant := Reread(x.grant, id, more), marked := w.markedBy.Keys, past := w.log, others := w.calls)
  }

  lemma SecondIsValid(cfg: Config, x: Case, id: string, more: string, w: World)
    requires Valid(cfg, x) && x.grant.grantId == id + ":" + more && w.markedBy.Keys == {x.grant.grantId}
    ensures Valid(cfg, Second(x, id, more, w))
  {
    RereadingKeepsTheBytes(x.grant, id, more);
  }

  lemma {:induction false} LoggedSomewhere(log: seq<Item>, c: CallId, a: Act) returns (i: nat)
    requires a in Project(log, c)
    ensures i < |log| && log[i] == Item(c, a)
  {
    var last := log[|log| - 1];
    if last == Item(c, a) {
      i := |log| - 1;
    } else {
      i := LoggedSomewhere(log[..|log| - 1], c, a);
    }
  }

  lemma OnlyOne(calls: map<CallId, Call>, c: CallId)
    requires c in calls && calls - {c} == map[]
    ensures calls.Keys == {c}
  {
    assert calls.Keys == (calls - {c}).Keys + {c};
  }

  /** The first call has been carried out and no other was made. */
  lemma ReadyForTheSecond(
    cfg: Config, worlds: seq<World>, labels: seq<Label>, x: Case, plan: Effect, id: string, more: string)
    requires IsRun(cfg, worlds, labels) && First(x)
    requires Standing(Last(worlds), x, Finished(Executed(KindOf(plan))), Done(plan, ANNOUNCED))
    ensures var w := Last(worlds);
            var y := Second(x, id, more, w);
            && w.markedBy.Keys == {x.grant.grantId} && w.holder == map[] && Present(w, y.grant) && 1 !in w.calls
            && Project(w.log, 1) == []
  {
    var w := Last(worlds);
    OnlyOne(w.calls, 0);
    RunsAreSound(cfg, worlds, labels, |worlds| - 1);
    ProjectOfStranger(w.log, 1);
  }

  /** So every valid grant with a colon in its id has a run in which its signature is redeemed twice, by two calls that
      each perform an effect. */
  lemma OneSignatureTwoEffects(cfg: Config, x: Case, id: string, more: string)
    returns (worlds: seq<World>, labels: seq<Label>, i: nat, j: nat)
    requires Valid(cfg, x) && First(x) && x.grant.grantId == id + ":" + more
    ensures IsRun(cfg, worlds, labels)
    ensures var w := Last(worlds);
            && i < |w.log| && w.log[i].call == 0 && w.log[i].act.Performed? && 0 in w.calls
            && j < |w.log| && w.log[j].call == 1 && w.log[j].act.Performed? && 1 in w.calls
            && CanonicalPayload(w.calls[0].grant) == CanonicalPayload(w.calls[1].grant)
            && w.calls[0].signature == w.calls[1].signature
  {
    worlds, labels := FirstIsAnnounced(cfg, x);
    worlds, labels := CarriesOut(cfg, worlds, labels, x, Plan(x), ANNOUNCED);
    ReadyForTheSecond(cfg, worlds, labels, x, Plan(x), id, more);
    ghost var w := Last(worlds);
    Trace(Plan(x));
    i := LoggedSomewhere(w.log, 0, Performed(Plan(x)));
    var y := Second(x, id, more, w);
    SecondIsValid(cfg, x, id, more, w);
    worlds, labels := Arrange(cfg, worlds, labels, y);
    worlds, labels := ReachesAnnounced(cfg, worlds, labels, y, Fresh);
    worlds, labels := CarriesOut(cfg, worlds, labels, y, Plan(y), ANNOUNCED);
    Trace(Plan(y));
    j := LoggedSomewhere(Last(worlds).log, 1, Performed(Plan(y)));
    RereadingKeepsTheBytes(x.grant, id, more);
    StillThere(Last(worlds), y, 0);
    assert Last(worlds).log[i] == w.log[i];
  }

  lemma StillThere(w: World, x: Case, c: CallId)
    requires w.calls - {x.c} == x.others && c in x.others
    ensures c in w.calls && w.calls[c] == x.others[c]
  {}
}
