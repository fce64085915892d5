/** The shared objects of the redeem protocol, each changed under its own mutex: the tracker of redeemed grants,
    the table of surface locks, and a surface's waiter slot and generation. `RedeemProtocol` interleaves
    their operations as functions of its world; here each is the code's own update, and keeps the object in step with
    what that function does to the world. */
module RedeemParts {
  import opened Wrappers
  import opened RedeemProtocol
  import NavigationPolicy

  class RedeemedGrantTracker {
    var redeemed: set<string>

    /** The tracker holds the ids marked in the world. */
    ghost predicate Reflects(w: World)
      reads this
    {
      redeemed == w.markedBy.Keys
    }

    constructor ()
      ensures redeemed == {}
    {
      redeemed := {};
    }

    /** Check and mark in one step: of all the calls with one id only the first succeeds. */
    method TryMarkRedeemed(grantId: string) returns (marked: bool)
      modifies this
      ensures marked <==> grantId !in old(redeemed)
      ensures redeemed == old(redeemed) + {grantId}
      ensures forall w: World, c: CallId :: old(Reflects(w)) && c in w.calls && w.calls[c].grant.grantId == grantId ==>
                && (marked <==> !See(w, w.calls[c]).redeemed)
                && Reflects(if marked then Operate(w, c, MarkId) else w)
    {
      if grantId in redeemed {
        return false;
      }
      redeemed := redeemed + {grantId};
      marked := true;
    }
  }

  /** A `tokio::sync::Mutex<()>`: what matters is which one it is, and who holds it. */
  class SurfaceLock {
    var holder: Option<CallId>

    constructor ()
      ensures holder == None
    {
      holder := None;
    }
  }

  class SurfaceRedeemLocks {
    var locks: map<string, SurfaceLock>

    /** No two surfaces share a lock. */
    ghost predicate Valid()
      reads this
    {
      forall s, t :: s in locks && t in locks && locks[s] == locks[t] ==> s == t
    }

    /** There is a lock for the surfaces that have one in the world, where they are told apart as well. */
    ghost predicate Reflects(w: World)
      reads this
    {
      locks.Keys == w.lockOf.Keys
    }

    constructor ()
      ensures Valid() && locks == map[]
    {
      locks := map[];
    }

    /** The surface's lock, made on first use; no entry is ever replaced or removed. */
    method LockFor(surface: string) returns (lock: SurfaceLock)
      requires Valid()
      modifies this
      ensures Valid()
      ensures surface in locks && locks[surface] == lock
      ensures locks.Keys == old(locks).Keys + {surface}
      ensures forall s :: s in old(locks) ==> locks[s] == old(locks)[s]
      ensures surface !in old(locks) ==> fresh(lock) && lock.holder == None
      ensures forall w: World, c: CallId ::
                old(Reflects(w)) && c in w.calls && w.calls[c].grant.surfaceId == surface ==>
                  Reflects(Operate(w, c, RequestLock))
    {
      if surface !in locks {
        var made := new SurfaceLock();
        locks := locks[surface := made];
      }
      lock := locks[surface];
    }
  }

  /** A one-shot channel: what was sent, and whether its sender is gone unsent. */
  class OneShot {
    var outcome: Option<NavigationOutcome>
    var closed: bool

    constructor ()
      ensures outcome == None && !closed
    {
      outcome, closed := None, false;
    }
  }

  class SurfaceEntry {
    var loading: bool
    var navigationGeneration: nat
    var navigationWaiter: OneShot?

    /** The entry's generation and slot are those of surface `s` in the world. */
    ghost predicate Reflects(w: World, s: string)
      reads this, navigationWaiter
    {
      && s in w.navigation && navigationGeneration == w.navigation[s].generation
      && match w.navigation[s].slot
         case None => navigationWaiter == null
         case Some(i) =>
           && i < |w.waiters| && navigationWaiter != null
           && navigationWaiter.outcome == w.waiters[i].outcome && navigationWaiter.closed == w.waiters[i].closed
    }

    constructor ()
      ensures !loading && navigationGeneration == 0 && navigationWaiter == null
    {
      loading, navigationGeneration, navigationWaiter := false, 0, null;
    }

    /** A fresh channel goes into the slot; a sender left there is dropped unsent. */
    method ArmNavigationWaiter() returns (receiver: OneShot)
      modifies this`navigationWaiter, navigationWaiter
      ensures fresh(receiver) && navigationWaiter == receiver && receiver.outcome == None && !receiver.closed
      ensures old(navigationWaiter) != null ==>
                old(navigationWaiter).closed && old(navigationWaiter).outcome == old(navigationWaiter.outcome)
      ensures forall w: World, c: CallId ::
                c in w.calls && old(Reflects(w, w.calls[c].grant.surfaceId)) ==>
                  Reflects(Operate(w, c, ArmWaiter), w.calls[c].grant.surfaceId)
    {
      receiver := new OneShot();
      if navigationWaiter != null {
        navigationWaiter.closed := true;
      }
      navigationWaiter := receiver;
    }

    /** The slot is emptied, so a later event cannot use the same sender again. */
    method ResolveNavigationWaiter(outcome: NavigationOutcome)
      modifies this`navigationWaiter, navigationWaiter
      ensures navigationWaiter == null
      ensures old(navigationWaiter) != null ==> old(navigationWaiter).outcome == Some(outcome)
      ensures forall w: World, s: string :: old(Reflects(w, s)) ==> Reflects(Resolve(w, s, outcome), s)
    {
      if navigationWaiter != null {
        navigationWaiter.outcome := Some(outcome);
        navigationWaiter := null;
      }
    }

    /** Only an allowed start counts; only a denied one resolves. */
    method OnNavigationStarting(decision: NavigationPolicy.Decision)
      modifies this, navigationWaiter
      ensures decision.Allow? ==>
                && loading && navigationGeneration == Increment(old(navigationGeneration))
                && navigationWaiter == old(navigationWaiter)
                && (navigationWaiter != null ==> unchanged(navigationWaiter))
      ensures decision.Deny? ==>
                && loading == old(loading) && navigationGeneration == old(navigationGeneration)
                && navigationWaiter == null
                && (old(navigationWaiter) != null ==>
                      old(navigationWaiter).outcome == Some(PolicyDenied(decision.reason)))
      ensures forall w: World, s: string :: old(Reflects(w, s)) ==>
                Reflects(if decision.Allow? then Count(w, s) else Resolve(w, s, PolicyDenied(decision.reason)), s)
    {
      match decision {
        case Allow =>
          loading := true;
          navigationGeneration := Increment(navigationGeneration);
        case Deny(reason) => ResolveNavigationWaiter(PolicyDenied(reason));
      }
    }

    /** An event without arguments tells no outcome and leaves the waiter armed. */
    method OnNavigationCompleted(outcome: Option<NavigationOutcome>)
      modifies this, navigationWaiter
      ensures !loading && navigationGeneration == old(navigationGeneration)
      ensures outcome.Some? ==> navigationWaiter == null
      ensures outcome.Some? && old(navigationWaiter) != null ==> old(navigationWaiter).outcome == outcome
      ensures outcome.None? ==>
                navigationWaiter == old(navigationWaiter) && (navigationWaiter != null ==> unchanged(navigationWaiter))
      ensures forall w: World, s: string :: old(Reflects(w, s)) ==>
                Reflects(if outcome.Some? then Resolve(w, s, outcome.value) else w, s)
    {
      loading := false;
      if outcome.Some? {
        ResolveNavigationWaiter(outcome.value);
      }
    }
  }
}
