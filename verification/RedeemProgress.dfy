/** No call is ever stuck: whatever the platform and the clock answer, calls can always run to their return. */
module RedeemProgress {
  import opened Wrappers
  import opened RedeemProtocol
  import opened RedeemSafety
  import opened RedeemRuns
  import opened RedeemPossible

  /** How many steps a call has left at most. */
  function Rank(p: Phase): nat {
    match p
    case Fresh => 15
    case SignatureOk => 14
    case TimeOk => 13
    case Marked => 12
    case Queued => 11
    case Inside => 10
    case SurfaceOk => 9
    case BindingOk => 8
    case ActiveOk => 7
    case GenerationOk => 6
    case Admitted => 5
    case Vetted(_) => 4
    case Announced(_) => 3
    case Armed(_) => 2
    case Rooted(_) => 2
    case Issued(_) => 1
    case Capturing(_) => 1
    case Submitted(_) => 1
    case Finished(_) => 0
  }

  lemma VettingRank(cfg: Config, call: Call)
    ensures Vet(cfg, call).phase.Finished? || Vet(cfg, call).phase.Vetted?
  {}

  lemma WaitsHaveRankZero(plan: Effect, seen: Seen, input: Input)
    ensures Rank(FinishNavigation(seen, input).phase) == 0 && Rank(FinishCapture(input).phase) == 0
    ensures Rank(FinishOperation(plan, input).phase) == 0
  {}

  lemma RankFalls(cfg: Config, call: Call, seen: Seen, input: Input)
    requires CanMove(call, seen, input)
    ensures Rank(Local(cfg, call, seen, input).phase) < Rank(call.phase)
  {
    match call.phase
    case Admitted => VettingRank(cfg, call);
    case Issued(plan) => WaitsHaveRankZero(plan, seen, input);
    case Capturing(plan) => WaitsHaveRankZero(plan, seen, input);
    case Submitted(plan) => WaitsHaveRankZero(plan, seen, input);
    case _ =>
  }

  // ---------------------------------------------------------------- how long a call can go on

  /** The steps of call `c` among the first `n`. */
  function StepsOf(labels: seq<Label>, c: CallId, n: nat): nat
    requires n <= |labels|
  {
    if n == 0 then 0 else StepsOf(labels, c, n - 1) + if labels[n - 1].Step? && labels[n - 1].c == c then 1 else 0
  }

  lemma RankInStep(cfg: Config, w: World, l: Label, c: CallId)
    requires Enabled(w, l) && c in Next(cfg, w, l).calls
    ensures l.Step? && l.c == c ==> c in w.calls
    ensures Rank(Next(cfg, w, l).calls[c].phase) + (if l.Step? && l.c == c then 1 else 0)
            <= if c in w.calls then Rank(w.calls[c].phase) else 15
  {
    if l.Step? {
      var seen := See(w, w.calls[l.c]);
      RankFalls(cfg, w.calls[l.c], seen, l.input);
      ApplyFrame(w, l.c, Local(cfg, w.calls[l.c], seen, l.input));
    } else {
      EnvironmentFrame(w, l);
    }
  }

  lemma CallsStay(cfg: Config, w: World, l: Label, c: CallId)
    requires Enabled(w, l) && c in w.calls
    ensures c in Next(cfg, w, l).calls
  {
    if l.Step? {
      ApplyFrame(w, l.c, Local(cfg, w.calls[l.c], See(w, w.calls[l.c]), l.input));
    } else {
      EnvironmentFrame(w, l);
    }
  }

  lemma StrangersTakeNoSteps(cfg: Config, worlds: seq<World>, labels: seq<Label>, n: nat, c: CallId)
    requires IsRun(cfg, worlds, labels) && n < |worlds| && c !in worlds[n].calls
    ensures StepsOf(labels, c, n) == 0
  {
    if n > 0 {
      assert StepAt(cfg, worlds, labels, n - 1);
      if c in worlds[n - 1].calls {
        CallsStay(cfg, worlds[n - 1], labels[n - 1], c);
      } else {
        StrangersTakeNoSteps(cfg, worlds, labels, n - 1, c);
      }
    }
  }

  /** In every run a call makes at most fifteen steps, and the ones it has made leave it that many fewer. */
  lemma {:induction false} StepsAreBounded(cfg: Config, worlds: seq<World>, labels: seq<Label>, n: nat, c: CallId)
    requires IsRun(cfg, worlds, labels) && n < |worlds| && c in worlds[n].calls
    ensures StepsOf(labels, c, n) + Rank(worlds[n].calls[c].phase) <= 15
  {
    assert n > 0;
    assert StepAt(cfg, worlds, labels, n - 1);
    RankInStep(cfg, worlds[n - 1], labels[n - 1], c);
    if c in worlds[n - 1].calls {
      StepsAreBounded(cfg, worlds, labels, n - 1, c);
    } else {
      StrangersTakeNoSteps(cfg, worlds, labels, n - 1, c);
    }
  }

  // ---------------------------------------------------------------- what can always happen

  /** A step in which any wait runs out. */
  function TimeOut(c: CallId, input: Input): Label {
    Step(c, input.(wait := Elapsed))
  }

  predicate Running(w: World, c: CallId) {
    c in w.calls && !w.calls[c].phase.Finished?
  }

  /** Call `c` waits for the lock that `d`, a call on the same surface, holds. */
  ghost predicate Blocks(w: World, c: CallId, d: CallId) {
    && c in w.calls && w.calls[c].phase == Queued && d in w.calls && InSection(w.calls[d].phase)
    && w.calls[d].lock == w.calls[c].lock && w.calls[d].grant.surfaceId == w.calls[c].grant.surfaceId
  }

  /** A running call can move, or the call that holds its lock can. */
  lemma NoCallIsStuck(w: World, c: CallId, input: Input) returns (d: CallId)
    requires LocksSound(w) && Running(w, c)
    ensures Running(w, d) && Enabled(w, TimeOut(d, input)) && (d == c || Blocks(w, c, d))
  {
    if w.calls[c].phase == Queued && w.calls[c].lock in w.holder {
      d := w.holder[w.calls[c].lock];
    } else {
      d := c;
    }
  }

  predicate IsTimeOut(w: World, l: Label, s: string, input: Input) {
    l.Step? && l == TimeOut(l.c, input) && l.c in w.calls && w.calls[l.c].grant.surfaceId == s
  }

  /** A run continued by nothing but steps of calls on `s` that get these answers and in which every wait runs out. */
  ghost predicate Continues(
    worlds0: seq<World>, labels0: seq<Label>, worlds: seq<World>, labels: seq<Label>, s: string, answers: nat -> Input)
    requires |worlds| == |labels| + 1
  {
    && worlds0 <= worlds && labels0 <= labels
    && forall k :: |labels0| <= k < |labels| ==> IsTimeOut(worlds[k], labels[k], s, answers(k))
  }

  lemma ContinuesFurther(
    worlds0: seq<World>, labels0: seq<Label>, worlds1: seq<World>, labels1: seq<Label>,
    worlds: seq<World>, labels: seq<Label>, s: string, answers: nat -> Input)
    requires |worlds1| == |labels1| + 1 && |worlds| == |labels| + 1
    requires Continues(worlds0, labels0, worlds1, labels1, s, answers)
    requires Continues(worlds1, labels1, worlds, labels, s, answers)
    ensures Continues(worlds0, labels0, worlds, labels, s, answers)
  {
    forall k | |labels0| <= k < |labels| ensures IsTimeOut(worlds[k], labels[k], s, answers(k)) {
      if k < |labels1| {
        assert IsTimeOut(worlds1[k], labels1[k], s, answers(k));
      }
    }
  }

  lemma OneTimeOut(cfg: Config, worlds0: seq<World>, labels0: seq<Label>, c: CallId, answers: nat -> Input)
    returns (worlds: seq<World>, labels: seq<Label>)
    requires IsRun(cfg, worlds0, labels0) && c in Last(worlds0).calls
             && Enabled(Last(worlds0), TimeOut(c, answers(|labels0|)))
    ensures IsRun(cfg, worlds, labels) && Last(worlds) == Next(cfg, Last(worlds0), TimeOut(c, answers(|labels0|)))
    ensures Continues(worlds0, labels0, worlds, labels, Last(worlds0).calls[c].grant.surfaceId, answers)
  {
    worlds, labels := Extend(cfg, worlds0, labels0, TimeOut(c, answers(|labels0|)));
    assert worlds[|labels0|] == worlds0[|labels0|];
  }

  // ---------------------------------------------------------------- inside the section

  /** `w` with only call `c` changed, and that not in its grant and lock. */
  ghost predicate OnlyRan(v: World, w: World, c: CallId) {
    && c in v.calls && w.calls.Keys == v.calls.Keys
    && (forall d :: d in v.calls && d != c ==> w.calls[d] == v.calls[d])
    && w.calls[c].grant == v.calls[c].grant && w.calls[c].lock == v.calls[c].lock
  }

  lemma InsideStep(cfg: Config, w: World, c: CallId, input: Input)
    requires c in w.calls && InSection(w.calls[c].phase)
    ensures Enabled(w, TimeOut(c, input))
    ensures var v := Next(cfg, w, TimeOut(c, input));
            && OnlyRan(w, v, c) && Rank(v.calls[c].phase) < Rank(w.calls[c].phase)
            && (InSection(v.calls[c].phase) ==> v.holder == w.holder)
            && (!InSection(v.calls[c].phase) ==> v.calls[c].phase.Finished? && v.holder == w.holder - {w.calls[c].lock})
  {
    var seen := See(w, w.calls[c]);
    var m := Local(cfg, w.calls[c], seen, input.(wait := Elapsed));
    RankFalls(cfg, w.calls[c], seen, input.(wait := Elapsed));
    MovesByPhase(cfg, w.calls[c], seen, input.(wait := Elapsed));
    PhasesAdvance(cfg, w.calls[c], seen, input.(wait := Elapsed));
    ApplyFrame(w, c, m);
    HolderAfter(w, c, m);
  }

  /** A call inside its section runs to its return on its own, and releases its lock. */
  lemma {:induction false} RunsToItsReturn(
    cfg: Config, worlds0: seq<World>, labels0: seq<Label>, c: CallId, answers: nat -> Input)
    returns (worlds: seq<World>, labels: seq<Label>)
    requires IsRun(cfg, worlds0, labels0) && c in Last(worlds0).calls && InSection(Last(worlds0).calls[c].phase)
    ensures IsRun(cfg, worlds, labels)
    ensures Continues(worlds0, labels0, worlds, labels, Last(worlds0).calls[c].grant.surfaceId, answers)
    ensures OnlyRan(Last(worlds0), Last(worlds), c) && Last(worlds).calls[c].phase.Finished?
    ensures Last(worlds).holder == Last(worlds0).holder - {Last(worlds0).calls[c].lock}
    decreases Rank(Last(worlds0).calls[c].phase)
  {
    InsideStep(cfg, Last(worlds0), c, answers(|labels0|));
    worlds, labels := OneTimeOut(cfg, worlds0, labels0, c, answers);
    if InSection(Last(worlds).calls[c].phase) {
      var worlds1, labels1 := worlds, labels;
      worlds, labels := RunsToItsReturn(cfg, worlds1, labels1, c, answers);
      ContinuesFurther(
        worlds0, labels0, worlds1, labels1, worlds, labels, Last(worlds0).calls[c].grant.surfaceId, answers);
    }
  }

  // ---------------------------------------------------------------- every call

  /** Before its section a call moves on, unless it waits for a lock that is held. */
  lemma OutsideStep(cfg: Config, w: World, c: CallId, input: Input)
    requires Running(w, c) && (w.calls[c].phase == Queued ==> w.calls[c].lock !in w.holder)
    ensures Enabled(w, TimeOut(c, input))
    ensures var v := Next(cfg, w, TimeOut(c, input));
            && c in v.calls && v.calls[c].grant == w.calls[c].grant
            && Rank(v.calls[c].phase) < Rank(w.calls[c].phase)
  {
    var seen := See(w, w.calls[c]);
    RankFalls(cfg, w.calls[c], seen, input.(wait := Elapsed));
    ApplyFrame(w, c, Local(cfg, w.calls[c], seen, input.(wait := Elapsed)));
  }

  /** The lock a call waits for is free, or is made so by its holder's return. */
  lemma LockGetsFree(cfg: Config, worlds0: seq<World>, labels0: seq<Label>, c: CallId, answers: nat -> Input)
    returns (worlds: seq<World>, labels: seq<Label>)
    requires IsRun(cfg, worlds0, labels0) && Running(Last(worlds0), c)
    ensures IsRun(cfg, worlds, labels)
    ensures Continues(worlds0, labels0, worlds, labels, Last(worlds0).calls[c].grant.surfaceId, answers)
    ensures c in Last(worlds).calls && Last(worlds).calls[c] == Last(worlds0).calls[c]
    ensures Last(worlds).calls[c].phase == Queued ==> Last(worlds).calls[c].lock !in Last(worlds).holder
  {
    var w := Last(worlds0);
    RunsAreSound(cfg, worlds0, labels0, |worlds0| - 1);
    var d := NoCallIsStuck(w, c, answers(|labels0|));
    if d == c {
      worlds, labels := worlds0, labels0;
    } else {
      worlds, labels := RunsToItsReturn(cfg, worlds0, labels0, d, answers);
    }
  }

  /** Every call of every run can return: the run goes on, by steps of calls on the same surface alone, to a point where
      the call has returned, whatever the clock and the platform answer at each step. */
  lemma {:induction false} EveryCallCanReturn(
    cfg: Config, worlds0: seq<World>, labels0: seq<Label>, c: CallId, answers: nat -> Input)
    returns (worlds: seq<World>, labels: seq<Label>)
    requires IsRun(cfg, worlds0, labels0) && c in Last(worlds0).calls
    ensures IsRun(cfg, worlds, labels)
    ensures Continues(worlds0, labels0, worlds, labels, Last(worlds0).calls[c].grant.surfaceId, answers)
    ensures c in Last(worlds).calls && Last(worlds).calls[c].phase.Finished?
    decreases Rank(Last(worlds0).calls[c].phase)
  {
    if Last(worlds0).calls[c].phase.Finished? {
      worlds, labels := worlds0, labels0;
    } else {
      var s := Last(worlds0).calls[c].grant.surfaceId;
      var worlds1, labels1 := LockGetsFree(cfg, worlds0, labels0, c, answers);
      OutsideStep(cfg, Last(worlds1), c, answers(|labels1|));
      var worlds2, labels2 := OneTimeOut(cfg, worlds1, labels1, c, answers);
      worlds, labels := EveryCallCanReturn(cfg, worlds2, labels2, c, answers);
      ContinuesFurther(worlds0, labels0, worlds1, labels1, worlds2, labels2, s, answers);
      ContinuesFurther(worlds0, labels0, worlds2, labels2, worlds, labels, s, answers);
    }
  }
}
