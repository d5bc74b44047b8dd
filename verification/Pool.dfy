/**
 The pool of VMs: what each critical section does to the shared state, and
 the threads that run them in any order.  A thread outside the lock is
 idle, asleep on the condition variable, woken but not yet back, spawning a
 VM, or holding one.
 */
module Pool {
  import opened Basics

  type Isle = nat

  /** The state behind the lock. */
  datatype Inner = Inner(idle: seq<Isle>, active: nat, closed: bool)

  datatype Strategy = Cold | Warm
  datatype Config = Config(maxSize: nat, strategy: Strategy)

  /** What `try_acquire` found: an idle VM, room to spawn one, or neither. */
  datatype Acquired = Found(isle: Isle) | Grow | NeedWait

  /** The idle list without the dead VMs at its end, and the last live one (`take_alive_isle`). */
  function TakeAlive(idle: seq<Isle>, dead: set<Isle>): (r: (seq<Isle>, Option<Isle>))
    ensures |r.0| + (if r.1.Some? then 1 else 0) <= |idle|
    ensures r.1.None? ==> r.0 == [] && forall isle :: isle in idle ==> isle in dead
    ensures r.1.Some? ==>
      && |r.0| < |idle| && r.0 == idle[..|r.0|] && idle[|r.0|] == r.1.value
      && r.1.value in idle && r.1.value !in dead
      && forall k :: |r.0| < k < |idle| ==> idle[k] in dead
  {
    if idle == [] then ([], None)
    else
      var last := idle[|idle| - 1];
      if last in dead then TakeAlive(idle[..|idle| - 1], dead) else (idle[..|idle| - 1], Some(last))
  }

  function TryAcquire(config: Config, p: Inner, dead: set<Isle>): (Inner, Acquired) {
    var (rest, isle) := TakeAlive(p.idle, dead);
    if isle.Some? then (p.(idle := rest, active := p.active + 1), Found(isle.value))
    else if p.active + |rest| < config.maxSize then (p.(idle := rest, active := p.active + 1), Grow)
    else (p.(idle := rest), NeedWait)
  }

  /** `usize::saturating_sub(1)`. */
  function Less(n: nat): nat {
    if n == 0 then 0 else n - 1
  }

  function ReturnIsle(config: Config, p: Inner, isle: Isle, dead: set<Isle>): Inner {
    var p1 := p.(active := Less(p.active));
    if !p.closed && config.strategy.Warm? && isle !in dead then p1.(idle := p.idle + [isle]) else p1
  }

  function DecActive(p: Inner): Inner {
    p.(active := Less(p.active))
  }

  function Shutdown(p: Inner): Inner {
    p.(idle := [], closed := true)
  }

  // ---- the threads ---------------------------------------------------------------

  /**
   `sleeping` and `woken` say of each thread whether its checkout has a
   timeout; `holding` which VM it holds.  `made` counts the VMs ever made.
   */
  datatype State = State(
    inner: Inner, dead: set<Isle>, made: nat,
    sleeping: map<nat, bool>, woken: map<nat, bool>, spawning: set<nat>, holding: map<nat, Isle>)

  /** `wake` is the thread that `notify_one` wakes: some sleeper, if there is one. */
  datatype Step =
    | Checkout(th: nat, timed: bool) | TryCheckout(th: nat) | TimedOut(th: nat)
    | Recheck(th: nat, expired: bool)
    | Stir(th: nat)
    | Spawned(th: nat) | SpawnFailed(th: nat, wake: Option<nat>)
    | Return(th: nat, wake: Option<nat>) | Discard(th: nat, wake: Option<nat>)
    | ShutDown
    | Dies(isle: Isle)

  function Init(): State {
    State(Inner([], 0, false), {}, 0, map[], map[], {}, map[])
  }

  predicate Outside(s: State, th: nat) {
    th !in s.sleeping && th !in s.woken && th !in s.spawning && th !in s.holding
  }

  predicate WakeOk(s: State, wake: Option<nat>) {
    if wake.Some? then wake.value in s.sleeping else s.sleeping == map[]
  }

  predicate Enabled(s: State, step: Step) {
    match step
    case Checkout(th, _) => Outside(s, th)
    case TryCheckout(th) => Outside(s, th)
    case TimedOut(th) => Outside(s, th)
    case Recheck(th, expired) => th in s.woken && (expired ==> s.woken[th])
    case Stir(th) => th in s.sleeping
    case Spawned(th) => th in s.spawning
    case SpawnFailed(th, wake) => th in s.spawning && WakeOk(s, wake)
    case Return(th, wake) => th in s.holding && WakeOk(s, wake)
    case Discard(th, wake) => th in s.holding && WakeOk(s, wake)
    case ShutDown => true
    case Dies(isle) => isle < s.made
  }

  function NotifyOne(s: State, wake: Option<nat>): State
    requires WakeOk(s, wake)
  {
    if wake.None? then s
    else s.(sleeping := s.sleeping - {wake.value}, woken := s.woken[wake.value := s.sleeping[wake.value]])
  }

  /** One pass of a checkout's loop; a thread that may wait goes to sleep when there is no room. */
  function Attempt(config: Config, s: State, th: nat, timed: bool, mayWait: bool): State {
    if s.inner.closed then s
    else
      var (inner, got) := TryAcquire(config, s.inner, s.dead);
      var s1 := s.(inner := inner);
      match got
      case Found(isle) => s1.(holding := s.holding[th := isle])
      case Grow => s1.(spawning := s.spawning + {th})
      case NeedWait => if mayWait then s1.(sleeping := s.sleeping[th := timed]) else s1
  }

  function Apply(config: Config, s: State, step: Step): State
    requires Enabled(s, step)
  {
    match step
    case Checkout(th, timed) => Attempt(config, s, th, timed, true)
    case TryCheckout(th) => Attempt(config, s, th, false, false)
    case TimedOut(th) => Attempt(config, s, th, true, false)
    case Recheck(th, expired) => Attempt(config, s.(woken := s.woken - {th}), th, s.woken[th], !expired)
    case Stir(th) => NotifyOne(s, Some(th))
    case Spawned(th) =>
      s.(spawning := s.spawning - {th}, holding := s.holding[th := s.made], made := s.made + 1)
    case SpawnFailed(th, wake) =>
      NotifyOne(s.(inner := DecActive(s.inner), spawning := s.spawning - {th}), wake)
    case Return(th, wake) =>
      NotifyOne(s.(inner := ReturnIsle(config, s.inner, s.holding[th], s.dead), holding := s.holding - {th}), wake)
    case Discard(th, wake) =>
      NotifyOne(s.(inner := DecActive(s.inner), holding := s.holding - {th}, dead := s.dead + {s.holding[th]}), wake)
    case ShutDown => s.(inner := Shutdown(s.inner), sleeping := map[], woken := s.woken + s.sleeping)
    case Dies(isle) => s.(dead := s.dead + {isle})
  }

  ghost predicate RunsTo(config: Config, s: State, steps: seq<Step>, s': State)
    decreases |steps|
  {
    if steps == [] then s' == s
    else Enabled(s, steps[0]) && RunsTo(config, Apply(config, s, steps[0]), steps[1..], s')
  }

  ghost predicate Reachable(config: Config, s: State) {
    exists steps: seq<Step> :: RunsTo(config, Init(), steps, s)
  }

  // ---- the invariant ----------------------------------------------------------------

  /** No thread is in two places. */
  ghost predicate Apart(s: State) {
    && s.sleeping.Keys !! s.woken.Keys
    && s.sleeping.Keys !! s.spawning && s.sleeping.Keys !! s.holding.Keys
    && s.woken.Keys !! s.spawning && s.woken.Keys !! s.holding.Keys
    && s.spawning !! s.holding.Keys
  }

  /** Within the bound; and while a thread sleeps, the free room is on its way to woken threads. */
  ghost predicate Inv(config: Config, s: State) {
    && Apart(s)
    && s.inner.active + |s.inner.idle| <= config.maxSize
    && s.inner.active == |s.spawning| + |s.holding|
    && (s.inner.closed ==> s.inner.idle == [] && s.sleeping == map[])
    && (s.sleeping != map[] ==> config.maxSize - s.inner.active <= |s.woken|)
  }

  lemma Without1(m: map<nat, bool>, k: nat)
    requires k in m
    ensures |m - {k}| == |m| - 1
  {
    assert m == (m - {k})[k := m[k]];
  }

  lemma Without2(m: map<nat, Isle>, k: nat)
    requires k in m
    ensures |m - {k}| == |m| - 1
  {
    assert m == (m - {k})[k := m[k]];
  }

  /** What holds in the middle of a step, with `left` more units of room free than threads woken. */
  ghost predicate Almost(config: Config, s: State, left: nat) {
    && Apart(s)
    && s.inner.active + |s.inner.idle| <= config.maxSize
    && s.inner.active == |s.spawning| + |s.holding|
    && (s.inner.closed ==> s.inner.idle == [] && s.sleeping == map[])
    && (s.sleeping != map[] ==> config.maxSize - s.inner.active <= |s.woken| + left)
  }

  lemma HoldInv(config: Config, s: State, th: nat, isle: Isle, rest: seq<Isle>)
    requires Almost(config, s, 1) && Outside(s, th) && !s.inner.closed && |rest| < |s.inner.idle|
    ensures Inv(config, s.(inner := s.inner.(idle := rest, active := s.inner.active + 1),
      holding := s.holding[th := isle]))
  {
    assert s.holding[th := isle].Keys == s.holding.Keys + {th};
  }

  lemma GrowInv(config: Config, s: State, th: nat)
    requires Almost(config, s, 1) && Outside(s, th) && !s.inner.closed && s.inner.active < config.maxSize
    ensures Inv(config, s.(inner := s.inner.(idle := [], active := s.inner.active + 1), spawning := s.spawning + {th}))
  {
    assert |s.spawning + {th}| == |s.spawning| + 1;
  }

  lemma SleepInv(config: Config, s: State, th: nat, timed: bool)
    requires Almost(config, s, 1) && Outside(s, th) && !s.inner.closed && s.inner.active >= config.maxSize
    ensures Inv(config, s.(inner := s.inner.(idle := [])))
    ensures Inv(config, s.(inner := s.inner.(idle := []), sleeping := s.sleeping[th := timed]))
  {
    assert s.sleeping[th := timed].Keys == s.sleeping.Keys + {th};
  }

  /** One pass of a checkout, by a thread that was woken or is new. */
  lemma AttemptInv(config: Config, s: State, th: nat, timed: bool, mayWait: bool)
    requires Almost(config, s, 1) && Outside(s, th)
    ensures Inv(config, Attempt(config, s, th, timed, mayWait))
  {
    hide TakeAlive, Inv, Almost, Apart, Outside;
    if s.inner.closed {
      ClosedInv(config, s);
    } else {
      var (rest, isle) := TakeAlive(s.inner.idle, s.dead);
      AlmostBound(config, s);
      if isle.Some? { HoldInv(config, s, th, isle.value, rest); }
      else if s.inner.active < config.maxSize { GrowInv(config, s, th); }
      else { SleepInv(config, s, th, timed); }
    }
  }

  lemma AlmostBound(config: Config, s: State)
    requires Almost(config, s, 1)
    ensures s.inner.active <= config.maxSize
  {
  }

  lemma ClosedInv(config: Config, s: State)
    requires Almost(config, s, 1) && s.inner.closed
    ensures Inv(config, s)
  {
  }

  lemma NotifyInv(config: Config, s: State, wake: Option<nat>)
    requires WakeOk(s, wake) && Almost(config, s, 1)
    ensures Inv(config, NotifyOne(s, wake))
  {
    hide Apart;
    if wake.Some? { WokenApart(s, wake.value); }
  }

  lemma WokenApart(s: State, th: nat)
    requires Apart(s) && th in s.sleeping
    ensures Apart(NotifyOne(s, Some(th))) && |NotifyOne(s, Some(th)).woken| == |s.woken| + 1
  {
    var woken := s.woken[th := s.sleeping[th]];
    assert woken.Keys == s.woken.Keys + {th} && |woken| == |s.woken| + 1;
  }

  lemma RecheckInv(config: Config, s: State, th: nat, expired: bool)
    requires Inv(config, s) && Enabled(s, Recheck(th, expired))
    ensures Inv(config, Apply(config, s, Recheck(th, expired)))
  {
    hide Attempt;
    Without1(s.woken, th);
    AttemptInv(config, s.(woken := s.woken - {th}), th, s.woken[th], !expired);
  }

  lemma GiveBackInv(config: Config, s: State, th: nat, inner: Inner, dead: set<Isle>, wake: Option<nat>)
    requires Inv(config, s) && th in s.holding && WakeOk(s, wake)
    requires inner.active == Less(s.inner.active) && inner.closed == s.inner.closed
    requires |inner.idle| <= |s.inner.idle| + 1 && (inner.closed ==> inner.idle == [])
    ensures Inv(config, NotifyOne(s.(inner := inner, holding := s.holding - {th}, dead := dead), wake))
  {
    hide NotifyOne;
    Without2(s.holding, th);
    NotifyInv(config, s.(inner := inner, holding := s.holding - {th}, dead := dead), wake);
  }

  lemma SpawnedInv(config: Config, s: State, th: nat)
    requires Inv(config, s) && th in s.spawning
    ensures Inv(config, Apply(config, s, Spawned(th)))
  {
    hide Attempt, NotifyOne, Apart;
    SpawnedApart(s, th);
  }

  lemma SpawnedApart(s: State, th: nat)
    requires Apart(s) && th in s.spawning
    ensures |s.holding[th := s.made]| == |s.holding| + 1 && |s.spawning - {th}| == |s.spawning| - 1
    ensures Apart(s.(spawning := s.spawning - {th}, holding := s.holding[th := s.made], made := s.made + 1))
  {
    assert s.holding[th := s.made].Keys == s.holding.Keys + {th};
  }

  lemma SpawnFailedInv(config: Config, s: State, th: nat, wake: Option<nat>)
    requires Inv(config, s) && th in s.spawning && WakeOk(s, wake)
    ensures Inv(config, Apply(config, s, SpawnFailed(th, wake)))
  {
    hide Attempt, NotifyOne;
    assert |s.spawning - {th}| == |s.spawning| - 1;
    NotifyInv(config, s.(inner := DecActive(s.inner), spawning := s.spawning - {th}), wake);
  }

  lemma ShutDownInv(config: Config, s: State)
    requires Inv(config, s)
    ensures Inv(config, Apply(config, s, ShutDown))
  {
    assert (s.woken + s.sleeping).Keys == s.woken.Keys + s.sleeping.Keys;
  }

  lemma StepInv(config: Config, s: State, step: Step)
    requires Inv(config, s) && Enabled(s, step)
    ensures Inv(config, Apply(config, s, step))
  {
    hide Attempt, NotifyOne, Apart;
    match step
    case Checkout(th, timed) => AttemptInv(config, s, th, timed, true);
    case TryCheckout(th) => AttemptInv(config, s, th, false, false);
    case TimedOut(th) => AttemptInv(config, s, th, true, false);
    case Recheck(th, expired) => RecheckInv(config, s, th, expired);
    case Stir(th) => NotifyInv(config, s, Some(th));
    case Spawned(th) => SpawnedInv(config, s, th);
    case SpawnFailed(th, wake) => SpawnFailedInv(config, s, th, wake);
    case Return(th, wake) =>
      GiveBackInv(config, s, th, ReturnIsle(config, s.inner, s.holding[th], s.dead), s.dead, wake);
    case Discard(th, wake) => GiveBackInv(config, s, th, DecActive(s.inner), s.dead + {s.holding[th]}, wake);
    case ShutDown => ShutDownInv(config, s);
    case Dies(_) => DiesInv(config, s, step);
  }

  lemma DiesInv(config: Config, s: State, step: Step)
    requires Inv(config, s) && step.Dies? && Enabled(s, step)
    ensures Inv(config, Apply(config, s, step))
  {
  }

  lemma {:induction false} RunKeeps(config: Config, s: State, steps: seq<Step>, s': State)
    requires Inv(config, s) && RunsTo(config, s, steps, s')
    ensures Inv(config, s')
    decreases |steps|
  {
    hide Inv, Enabled, Apply;
    if steps != [] {
      StepInv(config, s, steps[0]);
      RunKeeps(config, Apply(config, s, steps[0]), steps[1..], s');
    }
  }

  lemma ReachableInv(config: Config, s: State)
    requires Reachable(config, s)
    ensures Inv(config, s)
  {
    var steps :| RunsTo(config, Init(), steps, s);
    RunKeeps(config, Init(), steps, s);
  }

  // ---- the theorems --------------------------------------------------------------------

  /** Checked-out, spawning and idle VMs never exceed `max_size`; a closed pool holds none idle. */
  lemma Bounded(config: Config, s: State)
    requires Reachable(config, s)
    ensures |s.holding| + |s.spawning| + |s.inner.idle| <= config.maxSize
    ensures s.inner.active == |s.holding| + |s.spawning|
    ensures s.inner.closed ==> s.inner.idle == []
  {
    ReachableInv(config, s);
  }

  /**
   No lost wake-up: while a checkout sleeps on an open pool, the free room is
   no more than the number of woken threads that have not looked again; with
   none of those, every VM is in use and none is idle.
   */
  lemma NoLostWakeup(config: Config, s: State, th: nat)
    requires Reachable(config, s) && th in s.sleeping
    ensures !s.inner.closed
    ensures config.maxSize - s.inner.active <= |s.woken|
    ensures s.woken == map[] ==> s.inner.active == config.maxSize && s.inner.idle == []
  {
    ReachableInv(config, s);
    assert s.sleeping != map[];
  }

  /** The count of active VMs never goes below zero: the saturating subtractions never saturate. */
  lemma NeverSaturates(config: Config, s: State, th: nat)
    requires Reachable(config, s) && (th in s.holding || th in s.spawning)
    ensures s.inner.active > 0
  {
    ReachableInv(config, s);
    if th in s.holding { Without2(s.holding, th); }
  }
}
