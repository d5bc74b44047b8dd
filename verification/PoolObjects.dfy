/** The pool as the program runs it: each method is one critical section, on the fields behind the lock. */
module PoolObjects {
  import opened Basics
  import P = Pool

  /** A VM; `alive` until its thread ends. */
  class Isle {
    const id: nat
    var alive: bool

    constructor (id: nat)
      ensures this.id == id && alive
    {
      this.id, alive := id, true;
    }

    method Shutdown()
      modifies this
      ensures !alive
    {
      alive := false;
    }
  }

  /** The condition variable: how often one waiter, and all waiters, were woken. */
  class Condvar {
    var ones: nat
    var alls: nat

    constructor ()
      ensures ones == 0 && alls == 0
    {
      ones, alls := 0, 0;
    }

    method NotifyOne()
      modifies this`ones
      ensures ones == old(ones) + 1
    {
      ones := ones + 1;
    }

    method NotifyAll()
      modifies this`alls
      ensures alls == old(alls) + 1
    {
      alls := alls + 1;
    }
  }

  ghost function Ids(list: seq<Isle>): (r: seq<nat>)
    ensures |r| == |list|
  {
    seq(|list|, i requires 0 <= i < |list| => list[i].id)
  }

  /** `dead` names the VMs of `list` that are not alive. */
  ghost predicate DeadAre(list: seq<Isle>, dead: set<nat>)
    reads list
  {
    forall isle :: isle in list ==> (isle.id in dead) == !isle.alive
  }

  class IslePool {
    const config: P.Config
    const condvar: Condvar
    var idle: seq<Isle>
    var active: nat
    var closed: bool

    constructor (config: P.Config)
      requires config.maxSize > 0
      ensures this.config == config && View() == P.Init().inner && fresh(condvar)
    {
      this.config := config;
      condvar := new Condvar();
      idle, active, closed := [], 0, false;
    }

    /** The abstract state behind the lock. */
    ghost function View(): P.Inner
      reads this
    {
      P.Inner(Ids(idle), active, closed)
    }

    /** Take a live VM from the idle list, dropping dead ones (`take_alive_isle`). */
    method TakeAliveIsle(ghost dead: set<nat>) returns (isle: Isle?)
      requires DeadAre(idle, dead)
      modifies this`idle
      ensures var (rest, found) := P.TakeAlive(old(View()).idle, dead);
        && Ids(idle) == rest
        && (if isle == null then found.None? else found == Some(isle.id) && isle.alive && isle in old(idle))
    {
      while idle != []
        invariant idle <= old(idle)
        invariant P.TakeAlive(Ids(old(idle)), dead) == P.TakeAlive(Ids(idle), dead)
        decreases |idle|
      {
        var last := idle[|idle| - 1];
        assert Ids(idle[..|idle| - 1]) == Ids(idle)[..|idle| - 1];
        assert last in old(idle);
        idle := idle[..|idle| - 1];
        if last.alive { return last; }
      }
      return null;
    }

    /** Take an idle VM, or room for a new one, or learn that there is neither (`try_acquire`). */
    method TryAcquire(ghost dead: set<nat>) returns (got: P.Acquired, isle: Isle?)
      requires DeadAre(idle, dead)
      modifies this`idle, this`active
      ensures (View(), got) == P.TryAcquire(config, old(View()), dead)
      ensures got.Found? <==> isle != null
      ensures isle != null ==> isle.id == got.isle && isle.alive
      ensures isle == null ==> idle == [] && (got.Grow? <==> old(active) < config.maxSize)
    {
      hide P.TakeAlive;
      isle := TakeAliveIsle(dead);
      if isle != null {
        active := active + 1;
        got := P.Found(isle.id);
      } else if active + |idle| < config.maxSize {
        active := active + 1;
        got := P.Grow;
      } else {
        got := P.NeedWait;
      }
    }

    /** Give a VM back (`return_isle`). */
    method ReturnIsle(isle: Isle, ghost dead: set<nat>)
      requires (isle.id in dead) == !isle.alive
      modifies this`idle, this`active, condvar, isle
      ensures View() == P.ReturnIsle(config, old(View()), isle.id, dead)
      ensures idle ==
        if !closed && config.strategy.Warm? && old(isle.alive) then old(idle) + [isle] else old(idle)
      ensures condvar.ones == old(condvar.ones) + 1 && condvar.alls == old(condvar.alls)
      ensures isle !in old(idle) ==> isle.alive == (isle in idle && old(isle.alive))
    {
      active := if active == 0 then 0 else active - 1;
      if closed {
        isle.Shutdown();
        condvar.NotifyOne();
        return;
      }
      match config.strategy {
        case Cold => isle.Shutdown();
        case Warm =>
          if isle.alive {
            assert Ids(idle + [isle]) == Ids(idle) + [isle.id];
            idle := idle + [isle];
          }
      }
      condvar.NotifyOne();
    }

    /** Drop a killed VM (`discard_isle`). */
    method DiscardIsle(isle: Isle)
      modifies this`active, condvar, isle
      ensures View() == P.DecActive(old(View())) && !isle.alive
      ensures condvar.ones == old(condvar.ones) + 1 && condvar.alls == old(condvar.alls)
    {
      isle.Shutdown();
      active := if active == 0 then 0 else active - 1;
      condvar.NotifyOne();
    }

    /** A spawn failed (`dec_active`). */
    method DecActive()
      modifies this`active, condvar
      ensures View() == P.DecActive(old(View()))
      ensures condvar.ones == old(condvar.ones) + 1 && condvar.alls == old(condvar.alls)
    {
      active := if active == 0 then 0 else active - 1;
      condvar.NotifyOne();
    }

    /** Close the pool: shut every idle VM down and wake everyone (`shutdown`). */
    method Shutdown()
      modifies this`idle, this`closed, idle, condvar
      ensures View() == P.Shutdown(old(View()))
      ensures forall isle :: isle in old(idle) ==> !isle.alive
      ensures condvar.alls == old(condvar.alls) + 1 && condvar.ones == old(condvar.ones)
    {
      closed := true;
      var list := idle;
      idle := [];
      var k := 0;
      while k < |list|
        invariant k <= |list| && idle == [] && closed && active == old(active)
        invariant forall j :: 0 <= j < k ==> !list[j].alive
        invariant condvar.alls == old(condvar.alls) && condvar.ones == old(condvar.ones)
        modifies list
      {
        list[k].Shutdown();
        k := k + 1;
      }
      condvar.NotifyAll();
    }
  }
}
