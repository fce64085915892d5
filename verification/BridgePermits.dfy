/** `BrowserBridgeState::try_acquire` and the permit's drop: any number of threads at one atomic counter,
    interleaved between a load and the compare-and-exchange that follows it. */
module BridgePermits {

  const MAX_IN_FLIGHT := 8

  type ThreadId = nat

  /** `Outside` a call and without a permit; inside `try_acquire` with the value last observed; or holding. */
  datatype Thread = Outside | Loaded(current: int) | Holding

  datatype Bridge = Bridge(inFlight: int, threads: map<ThreadId, Thread>)

  datatype Label =
    | Spawn(t: ThreadId)
    | Load(t: ThreadId)      // the call begins
    | Refuse(t: ThreadId)    // it returns None
    | Exchange(t: ThreadId)  // compare_exchange(current, current + 1)
    | Drop(t: ThreadId)      // the permit goes: fetch_sub(1)

  predicate Is(b: Bridge, t: ThreadId, s: Thread) {
    t in b.threads && b.threads[t] == s
  }

  predicate InCall(b: Bridge, t: ThreadId) {
    t in b.threads && b.threads[t].Loaded?
  }

  predicate Enabled(b: Bridge, l: Label) {
    match l
    case Spawn(t) => t !in b.threads
    case Load(t) => Is(b, t, Outside)
    case Refuse(t) => InCall(b, t) && b.threads[t].current >= MAX_IN_FLIGHT
    case Exchange(t) => InCall(b, t) && b.threads[t].current < MAX_IN_FLIGHT
    case Drop(t) => Is(b, t, Holding)
  }

  function Next(b: Bridge, l: Label): Bridge
    requires Enabled(b, l)
  {
    match l
    case Spawn(t) => b.(threads := b.threads[t := Outside])
    case Load(t) => b.(threads := b.threads[t := Loaded(b.inFlight)])
    case Refuse(t) => b.(threads := b.threads[t := Outside])
    case Exchange(t) =>
      if b.inFlight == b.threads[t].current then Bridge(b.inFlight + 1, b.threads[t := Holding])
      else b.(threads := b.threads[t := Loaded(b.inFlight)])
    case Drop(t) => Bridge(b.inFlight - 1, b.threads[t := Outside])
  }

  ghost predicate StepAt(bridges: seq<Bridge>, labels: seq<Label>, i: nat)
    requires i < |labels| && |bridges| == |labels| + 1
  {
    Enabled(bridges[i], labels[i]) && bridges[i + 1] == Next(bridges[i], labels[i])
  }

  ghost predicate IsRun(bridges: seq<Bridge>, labels: seq<Label>) {
    && |bridges| == |labels| + 1
    && bridges[0] == Bridge(0, map[])
    && forall i: nat :: i < |labels| ==> StepAt(bridges, labels, i)
  }

  // ---------------------------------------------------------------- the count

  function Holders(threads: map<ThreadId, Thread>): set<ThreadId> {
    set t | t in threads && threads[t].Holding?
  }

  ghost predicate Counted(b: Bridge) {
    b.inFlight == |Holders(b.threads)| && b.inFlight <= MAX_IN_FLIGHT
  }

  lemma HoldersAfter(threads: map<ThreadId, Thread>, t: ThreadId, s: Thread)
    ensures Holders(threads[t := s]) == if s.Holding? then Holders(threads) + {t} else Holders(threads) - {t}
  {}

  lemma StepKeepsCounted(b: Bridge, l: Label)
    requires Counted(b) && Enabled(b, l)
    ensures Counted(Next(b, l))
  {
    var n := Next(b, l);
    HoldersAfter(b.threads, l.t, n.threads[l.t]);
    if l.Drop? {
      assert l.t in Holders(b.threads);
    }
  }

  /** In every interleaving the counter is the number of live permits, and never more than eight. */
  lemma {:induction false} CounterIsLivePermits(bridges: seq<Bridge>, labels: seq<Label>, n: nat)
    requires IsRun(bridges, labels) && n < |bridges|
    ensures bridges[n].inFlight == |Holders(bridges[n].threads)| <= 8
  {
    if n == 0 {
      assert Holders(bridges[0].threads) == {};
    } else {
      CounterIsLivePermits(bridges, labels, n - 1);
      assert StepAt(bridges, labels, n - 1);
      StepKeepsCounted(bridges[n - 1], labels[n - 1]);
    }
  }

  // ---------------------------------------------------------------- refusals

  /** At `i` the counter had the value thread `t` now works with, and `t` has been in the same call since. */
  ghost predicate ObservedAt(bridges: seq<Bridge>, i: nat, n: nat, t: ThreadId, value: int)
    requires n < |bridges|
  {
    && i < n && bridges[i].inFlight == value
    && forall j :: i < j <= n ==> InCall(bridges[j], t)
  }

  lemma {:induction false} ValueWasCurrent(
    bridges: seq<Bridge>, labels: seq<Label>, n: nat, t: ThreadId)
    returns (i: nat)
    requires IsRun(bridges, labels) && n < |bridges| && InCall(bridges[n], t)
    ensures ObservedAt(bridges, i, n, t, bridges[n].threads[t].current)
  {
    assert n > 0;
    assert StepAt(bridges, labels, n - 1);
    var b, l := bridges[n - 1], labels[n - 1];
    if (l.Load? || l.Exchange?) && l.t == t {
      i := n - 1;
    } else {
      i := ValueWasCurrent(bridges, labels, n - 1, t);
    }
  }

  /** A call is refused only if at some moment of that very call the counter was at the limit, all eight permits
      being live. */
  lemma RefusedOnlyAtTheLimit(bridges: seq<Bridge>, labels: seq<Label>, n: nat) returns (i: nat)
    requires IsRun(bridges, labels) && n < |labels| && labels[n].Refuse?
    ensures ObservedAt(bridges, i, n, labels[n].t, MAX_IN_FLIGHT)
    ensures |Holders(bridges[i].threads)| == 8
  {
    assert StepAt(bridges, labels, n);
    i := ValueWasCurrent(bridges, labels, n, labels[n].t);
    CounterIsLivePermits(bridges, labels, i);
  }

  /** And an exchange succeeds exactly when no other thread changed the counter, or changed it back, since the
      value was observed. */
  lemma ExchangeSucceedsIff(b: Bridge, t: ThreadId)
    requires Counted(b) && Enabled(b, Exchange(t))
    ensures Is(Next(b, Exchange(t)), t, Holding) <==> |Holders(b.threads)| == b.threads[t].current
  {}
}
