/** Which VM a thread of the pool gets, and where a VM goes that is given back. */
module PoolUse {
  import opened Basics
  import opened Pool

  // ---- one place for each VM -------------------------------------------------------------

  ghost predicate Places(s: State) {
    && NoDup(s.inner.idle)
    && (forall isle :: isle in s.inner.idle ==> isle < s.made)
    && (forall th :: th in s.holding ==> s.holding[th] < s.made && s.holding[th] !in s.inner.idle)
    && (forall a, b :: a in s.holding && b in s.holding && a != b ==> s.holding[a] != s.holding[b])
  }

  lemma AttemptPlaces(config: Config, s: State, th: nat, timed: bool, mayWait: bool)
    requires Places(s)
    ensures Places(Attempt(config, s, th, timed, mayWait))
  {
    var (rest, isle) := TakeAlive(s.inner.idle, s.dead);
    assert forall x :: x in rest ==> x in s.inner.idle;
    assert NoDup(rest);
    if isle.Some? {
      assert s.inner.idle[|rest|] == isle.value && isle.value in s.inner.idle;
      assert isle.value !in rest;
      assert forall k :: 0 <= k < |rest| ==> rest[k] == s.inner.idle[k];
    }
  }

  lemma StepPlaces(config: Config, s: State, step: Step)
    requires Places(s) && Enabled(s, step)
    ensures Places(Apply(config, s, step))
  {
    hide Attempt, NoDup;
    match step
    case Checkout(th, timed) => AttemptPlaces(config, s, th, timed, true);
    case TryCheckout(th) => AttemptPlaces(config, s, th, false, false);
    case TimedOut(th) => AttemptPlaces(config, s, th, true, false);
    case Recheck(th, expired) => AttemptPlaces(config, s.(woken := s.woken - {th}), th, s.woken[th], !expired);
    case ShutDown => NoneTwice();
    case Return(th, _) => LastIsNew(s.inner.idle, s.holding[th]);
    case _ =>
  }

  lemma LastIsNew(list: seq<Isle>, isle: Isle)
    requires NoDup(list) && isle !in list
    ensures NoDup(list + [isle])
  {
  }

  lemma NoneTwice()
    ensures NoDup<Isle>([])
  {
  }

  lemma {:induction false} RunPlaces(config: Config, s: State, steps: seq<Step>, s': State)
    requires Places(s) && RunsTo(config, s, steps, s')
    ensures Places(s')
    decreases |steps|
  {
    hide Places, Enabled, Apply;
    if steps != [] {
      StepPlaces(config, s, steps[0]);
      RunPlaces(config, Apply(config, s, steps[0]), steps[1..], s');
    }
  }

  /** No VM is ever in the hands of two threads, or in the idle list while it is in use. */
  lemma OneHolder(config: Config, s: State, a: nat, b: nat)
    requires Reachable(config, s) && a in s.holding && b in s.holding && s.holding[a] == s.holding[b]
    ensures a == b && s.holding[a] !in s.inner.idle && NoDup(s.inner.idle)
  {
    var steps :| RunsTo(config, Init(), steps, s);
    RunPlaces(config, Init(), steps, s);
  }

  // ---- what a checkout gets --------------------------------------------------------------

  /** The last VM of the idle list that is alive is at `k`. */
  predicate LastAlive(s: State, k: nat) {
    && k < |s.inner.idle| && s.inner.idle[k] !in s.dead
    && forall j :: k < j < |s.inner.idle| ==> s.inner.idle[j] in s.dead
  }

  predicate NoneAlive(s: State) {
    forall isle :: isle in s.inner.idle ==> isle in s.dead
  }

  /**
   One pass of a checkout on an open pool: the VM given back last that is
   alive; without one, room to spawn while fewer than `maxSize` are in use;
   else it sleeps, or gives up if it may not wait.
   */
  lemma CheckoutGets(config: Config, s: State, th: nat, timed: bool, mayWait: bool)
    requires Outside(s, th) && !s.inner.closed
    ensures var s' := Attempt(config, s, th, timed, mayWait);
      && (forall k: nat :: LastAlive(s, k) ==>
            s' == s.(inner := Inner(s.inner.idle[..k], s.inner.active + 1, false),
                     holding := s.holding[th := s.inner.idle[k]]))
      && (NoneAlive(s) && s.inner.active < config.maxSize ==>
            s' == s.(inner := Inner([], s.inner.active + 1, false), spawning := s.spawning + {th}))
      && (NoneAlive(s) && s.inner.active >= config.maxSize ==>
            s' == s.(inner := Inner([], s.inner.active, false),
                     sleeping := if mayWait then s.sleeping[th := timed] else s.sleeping))
      && (NoneAlive(s) || exists k: nat :: LastAlive(s, k))
  {
    var (rest, isle) := TakeAlive(s.inner.idle, s.dead);
    if isle.Some? {
      assert LastAlive(s, |rest|);
      assert forall k: nat :: LastAlive(s, k) ==> !(k < |rest|) && !(|rest| < k);
    }
  }

  /** Who may wait sleeps when nothing is to be had; who may not, or whose time is over, goes away. */
  lemma NothingToBeHad(config: Config, s: State, th: nat, timed: bool)
    requires !s.inner.closed && NoneAlive(s) && s.inner.active >= config.maxSize
    ensures Enabled(s, Checkout(th, timed)) ==>
      Apply(config, s, Checkout(th, timed)).sleeping == s.sleeping[th := timed]
    ensures Enabled(s, TryCheckout(th)) ==> Apply(config, s, TryCheckout(th)).sleeping == s.sleeping
    ensures Enabled(s, TimedOut(th)) ==> Apply(config, s, TimedOut(th)).sleeping == s.sleeping
    ensures forall expired :: Enabled(s, Recheck(th, expired)) ==>
      && Apply(config, s, Recheck(th, expired)).woken == s.woken - {th}
      && Apply(config, s, Recheck(th, expired)).sleeping ==
           if expired then s.sleeping else s.sleeping[th := s.woken[th]]
  {
    assert TakeAlive(s.inner.idle, s.dead).1.None?;
  }

  /** A closed pool gives nothing out. */
  lemma ClosedGivesNothing(config: Config, s: State, th: nat, timed: bool, mayWait: bool)
    requires s.inner.closed
    ensures Attempt(config, s, th, timed, mayWait) == s
  {
  }

  // ---- where a VM goes -------------------------------------------------------------------

  /** A VM given back alive to an open warm pool is idle, last in the list; any other is gone. Its place is free. */
  lemma GivenBack(config: Config, s: State, th: nat, wake: Option<nat>)
    requires Reachable(config, s) && Enabled(s, Return(th, wake))
    ensures var s' := Apply(config, s, Return(th, wake));
      var kept := !s.inner.closed && config.strategy.Warm? && s.holding[th] !in s.dead;
      && s'.inner.idle == s.inner.idle + (if kept then [s.holding[th]] else [])
      && s'.inner.active + 1 == s.inner.active && s'.inner.closed == s.inner.closed
      && s'.holding == s.holding - {th} && s'.dead == s.dead && s'.spawning == s.spawning
      && s'.sleeping.Keys + s'.woken.Keys == s.sleeping.Keys + s.woken.Keys
      && (if s.sleeping == map[] then s'.woken == s.woken
          else exists up :: up in s.sleeping && s'.woken.Keys == s.woken.Keys + {up} && up !in s'.sleeping)
  {
    NeverSaturates(config, s, th);
  }

  /** A VM that was killed never comes back; its place is free. */
  lemma Discarded(config: Config, s: State, th: nat, wake: Option<nat>)
    requires Reachable(config, s) && Enabled(s, Discard(th, wake))
    ensures var s' := Apply(config, s, Discard(th, wake));
      && s'.inner.idle == s.inner.idle && s.holding[th] !in s'.inner.idle && s.holding[th] in s'.dead
      && s'.inner.active + 1 == s.inner.active && s'.inner.closed == s.inner.closed
      && s'.holding == s.holding - {th}
  {
    NeverSaturates(config, s, th);
    OneHolder(config, s, th, th);
  }

  /** A shutdown empties the pool, wakes every sleeper and leaves VMs in use with their holders. */
  lemma ClosesAll(config: Config, s: State)
    ensures var s' := Apply(config, s, ShutDown);
      && s'.inner == Inner([], s.inner.active, true) && s'.holding == s.holding && s'.spawning == s.spawning
      && s'.sleeping == map[] && s'.woken.Keys == s.woken.Keys + s.sleeping.Keys
  {
    assert (s.woken + s.sleeping).Keys == s.woken.Keys + s.sleeping.Keys;
  }

  /** A warm pool hands the VM that was given back to the next checkout. */
  lemma WarmReuse(config: Config, s: State, th: nat, wake: Option<nat>, next: nat)
    requires Reachable(config, s) && Enabled(s, Return(th, wake)) && !s.inner.closed && config.strategy.Warm?
    requires s.holding[th] !in s.dead
    requires Outside(Apply(config, s, Return(th, wake)), next)
    ensures var s1 := Apply(config, s, Return(th, wake));
      && Enabled(s1, TryCheckout(next))
      && var s2 := Apply(config, s1, TryCheckout(next));
         next in s2.holding && s2.holding[next] == s.holding[th] && s2.inner == s.inner
  {
    GivenBack(config, s, th, wake);
    var s1 := Apply(config, s, Return(th, wake));
    assert LastAlive(s1, |s.inner.idle|);
    hide Apply, Attempt;
    CheckoutGets(config, s1, next, false, false);
    TryCheckoutIs(config, s1, next);
    assert s1.inner.idle[..|s.inner.idle|] == s.inner.idle;
  }

  lemma TryCheckoutIs(config: Config, s: State, th: nat)
    requires Enabled(s, TryCheckout(th))
    ensures Apply(config, s, TryCheckout(th)) == Attempt(config, s, th, false, false)
  {
  }

  /** A cold pool keeps no VM idle. */
  lemma ColdKeepsNone(config: Config, s: State)
    requires Reachable(config, s) && config.strategy.Cold?
    ensures s.inner.idle == []
  {
    var steps :| RunsTo(config, Init(), steps, s);
    ColdRun(config, Init(), steps, s);
  }

  lemma {:induction false} ColdRun(config: Config, s: State, steps: seq<Step>, s': State)
    requires RunsTo(config, s, steps, s') && config.strategy.Cold? && s.inner.idle == []
    ensures s'.inner.idle == []
    decreases |steps|
  {
    if steps != [] { ColdRun(config, Apply(config, s, steps[0]), steps[1..], s'); }
  }
}
