/**
 Several Lua receivers on one channel that host threads feed.

 The host's queue keeps a single receiver waker (`slot`).  Every poll stores
 the fan-out waker there, which wakes all tasks in `fan`.  A step is one
 atomic action of one thread: host threads push, take the slot, take the
 list and wake one task at a time, while the Lua thread goes through a poll
 step by step.
 */
module FanOut {

  type Task = nat

  /** Where a host thread is in `send` (or in dropping the last sender). */
  datatype Host = Idle | Pushed | TookSlot | Waking(rest: set<Task>)

  /** Where the Lua thread is in the poll of a receive. */
  datatype Stage = Registered | Listed | FoundEmpty | Stored
  datatype LuaThread = Free | Polling(task: Task, stage: Stage)

  /**
   `buf` holds the values put back to the front; `recvWakers` are the tasks
   registered with the channel itself; `waiting` holds the tasks whose last
   poll returned pending and that still want a value.  `pushed` and `taken`
   record what hosts sent and what receives took from the queue; `held` is
   what receivers have.
   */
  datatype State = State(
    queue: seq<int>, slot: bool, fan: set<Task>, closed: bool, hosts: seq<Host>,
    buf: seq<int>, recvWakers: set<Task>, waiting: set<Task>, awake: set<Task>, lua: LuaThread,
    pushed: seq<int>, taken: seq<int>, held: multiset<int>)

  datatype Step =
    // host threads
    | Push(host: nat, value: int) | DropSender(host: nat)
    | TakeSlot(host: nat) | TakeList(host: nat) | WakeOne(host: nat, task: Task) | EndWake(host: nat)
    // the poll of a receive
    | Begin(task: Task) | ListTask | FirstPop | StoreWaker | SecondPop
    // other calls on the Lua thread
    | GiveUp(task: Task) | TryRecv | PutBack(value: int) | Close

  function Init(threads: nat): State {
    State([], false, {}, false, seq(threads, _ => Idle), [], {}, {}, {}, Free, [], [], multiset{})
  }

  predicate HostAt(s: State, i: nat, pc: Host) {
    i < |s.hosts| && s.hosts[i] == pc
  }

  predicate At(s: State, stage: Stage) {
    s.lua.Polling? && s.lua.stage == stage
  }

  predicate Enabled(s: State, step: Step) {
    match step
    case Push(i, _) => HostAt(s, i, Idle) && !s.closed
    case DropSender(i) => HostAt(s, i, Idle)
    case TakeSlot(i) => HostAt(s, i, Pushed)
    case TakeList(i) => HostAt(s, i, TookSlot)
    case WakeOne(i, t) => i < |s.hosts| && s.hosts[i].Waking? && t in s.hosts[i].rest
    case EndWake(i) => HostAt(s, i, Waking({}))
    case Begin(t) => s.lua.Free?
    case ListTask => At(s, Registered)
    case FirstPop => At(s, Listed)
    case StoreWaker => At(s, FoundEmpty)
    case SecondPop => At(s, Stored)
    case GiveUp(t) => s.lua.Free?
    case TryRecv => s.lua.Free?
    case PutBack(v) => s.lua.Free? && v in s.held
    case Close => s.lua.Free?
  }

  function SetHost(s: State, i: nat, pc: Host): State
    requires i < |s.hosts|
  {
    s.(hosts := s.hosts[i := pc])
  }

  /** Take from the host's queue, see that it is closed and drained, or go on to `next`. */
  function Pop(s: State, next: State): State {
    if s.queue != [] then s.(queue := s.queue[1..], lua := Free, taken := s.taken + [s.queue[0]],
                              held := s.held + multiset{s.queue[0]})
    else if s.closed then s.(lua := Free)
    else next
  }

  /** Take the value that was put back last. */
  function TakeBack(s: State): State
    requires s.buf != []
  {
    s.(buf := s.buf[1..], held := s.held + multiset{s.buf[0]})
  }

  function Apply(s: State, step: Step): State
    requires Enabled(s, step)
  {
    match step
    case Push(i, v) => SetHost(s.(queue := s.queue + [v], pushed := s.pushed + [v]), i, Pushed)
    case DropSender(i) => SetHost(s.(closed := true), i, Pushed)
    case TakeSlot(i) => if s.slot then SetHost(s.(slot := false), i, TookSlot) else SetHost(s, i, Idle)
    case TakeList(i) => SetHost(s.(fan := {}), i, Waking(s.fan))
    case WakeOne(i, t) => SetHost(s.(awake := s.awake + {t}), i, Waking(s.hosts[i].rest - {t}))
    case EndWake(i) => SetHost(s, i, Idle)
    case Begin(t) =>
      var s1 := s.(awake := s.awake - {t}, waiting := s.waiting - {t});
      if s.buf != [] then TakeBack(s1)
      else s1.(recvWakers := s.recvWakers + {t}, lua := Polling(t, Registered))
    case ListTask => s.(fan := s.fan + {s.lua.task}, lua := s.lua.(stage := Listed))
    case FirstPop => Pop(s, s.(lua := s.lua.(stage := FoundEmpty)))
    case StoreWaker => s.(slot := true, lua := s.lua.(stage := Stored))
    case SecondPop => Pop(s, s.(waiting := s.waiting + {s.lua.task}, lua := Free))
    case GiveUp(t) => s.(waiting := s.waiting - {t})
    case TryRecv => if s.buf != [] then TakeBack(s) else Pop(s, s)
    case PutBack(v) =>
      s.(buf := [v] + s.buf, held := s.held - multiset{v}, awake := s.awake + s.recvWakers, recvWakers := {})
    case Close => s.(closed := true, awake := s.awake + s.recvWakers, recvWakers := {})
  }

  ghost predicate RunsTo(s: State, steps: seq<Step>, s': State)
    decreases |steps|
  {
    if steps == [] then s' == s
    else Enabled(s, steps[0]) && RunsTo(Apply(s, steps[0]), steps[1..], s')
  }

  ghost predicate Reachable(s: State) {
    exists threads: nat, steps: seq<Step> :: RunsTo(Init(threads), steps, s)
  }

  // ---- the invariant ----------------------------------------------------------

  /** A receive would not wait. */
  predicate Ready(s: State) {
    s.queue != [] || s.closed
  }

  /** Some host thread is about to wake `t`. */
  predicate WakeComing(s: State, t: Task) {
    || (exists i :: 0 <= i < |s.hosts| && s.hosts[i].Waking? && t in s.hosts[i].rest)
    || (t in s.fan && exists i :: 0 <= i < |s.hosts| && s.hosts[i] == TookSlot)
  }

  predicate SomePushed(s: State) {
    exists i :: 0 <= i < |s.hosts| && s.hosts[i] == Pushed
  }

  /** `t` is woken by the next push, and by the last one if it is not over. */
  predicate Safe(s: State, t: Task) {
    t in s.awake || WakeComing(s, t) || (t in s.fan && s.slot && (Ready(s) ==> SomePushed(s)))
  }

  /** As `Safe`, when the queue was not looked at since the waker was stored. */
  predicate Armed(s: State, t: Task) {
    t in s.awake || WakeComing(s, t) || (t in s.fan && s.slot)
  }

  /** What holds of the task being polled once it is in the list. */
  predicate PollOk(s: State) {
    s.lua.Polling? ==>
      && s.buf == [] && s.lua.task in s.recvWakers && s.lua.task !in s.waiting
      && (!s.lua.stage.Registered? ==>
            s.lua.task in s.fan || s.lua.task in s.awake || WakeComing(s, s.lua.task))
      && (s.lua.stage.Stored? ==> Armed(s, s.lua.task))
  }

  ghost predicate Inv(s: State) {
    && PollOk(s)
    && (forall t :: t in s.waiting && t !in s.awake ==> s.buf == [] && t in s.recvWakers && Safe(s, t))
  }

  /** A host's step does not undo a coming wake-up, but for the task it wakes. */
  lemma HostStepSafe(s: State, step: Step, t: Task)
    requires Enabled(s, step)
    requires step.Push? || step.DropSender? || step.TakeSlot? || step.TakeList? || step.WakeOne? || step.EndWake?
    ensures Safe(s, t) ==> Safe(Apply(s, step), t)
    ensures Armed(s, t) ==> Armed(Apply(s, step), t)
    ensures t in s.fan || t in s.awake || WakeComing(s, t) ==>
      var s' := Apply(s, step); t in s'.fan || t in s'.awake || WakeComing(s', t)
  {
    var s' := Apply(s, step);
    assert s'.hosts[step.host] == s'.hosts[step.host];
    if i :| 0 <= i < |s.hosts| && s.hosts[i].Waking? && t in s.hosts[i].rest {
      assert i == step.host || s'.hosts[i] == s.hosts[i];
    } else if i :| 0 <= i < |s.hosts| && s.hosts[i] == TookSlot {
      assert i == step.host || s'.hosts[i] == s.hosts[i];
    } else if i :| 0 <= i < |s.hosts| && s.hosts[i] == Pushed {
      assert i == step.host || s'.hosts[i] == s.hosts[i];
    }
  }

  predicate OnHost(step: Step) {
    step.Push? || step.DropSender? || step.TakeSlot? || step.TakeList? || step.WakeOne? || step.EndWake?
  }

  lemma HostStepKeeps(s: State, step: Step)
    requires Inv(s) && Enabled(s, step) && OnHost(step)
    ensures Inv(Apply(s, step))
  {
    hide Safe, Armed, WakeComing;
    var s' := Apply(s, step);
    forall t ensures Safe(s, t) ==> Safe(s', t) {
      HostStepSafe(s, step, t);
    }
    if s.lua.Polling? { HostStepSafe(s, step, s.lua.task); }
    assert forall t :: t in s.awake ==> t in s'.awake;
  }

  /** Steps of the Lua thread leave the hosts alone. */
  lemma LuaStepSafe(s: State, s': State, t: Task)
    requires s'.hosts == s.hosts && s.fan <= s'.fan && (s.slot ==> s'.slot)
    requires t in s.awake ==> t in s'.awake
    requires Ready(s') ==> Ready(s) || t in s'.awake
    ensures Safe(s, t) ==> Safe(s', t)
    ensures WakeComing(s, t) ==> WakeComing(s', t)
    ensures Armed(s, t) ==> Armed(s', t)
    ensures Armed(s, t) && !Ready(s') ==> Safe(s', t)
  {
  }

  lemma LuaStepKeeps(s: State, step: Step)
    requires Inv(s) && Enabled(s, step) && !OnHost(step)
    ensures Inv(Apply(s, step))
  {
    hide Safe, Armed, WakeComing;
    var s' := Apply(s, step);
    forall t | t in s'.waiting && t !in s'.awake ensures s'.buf == [] && t in s'.recvWakers && Safe(s', t) {
      LuaStepSafe(s, s', t);
    }
    if s.lua.Polling? {
      LuaStepSafe(s, s', s.lua.task);
      StoredArmed(s, step);
    }
  }

  lemma StoredArmed(s: State, step: Step)
    requires Inv(s) && Enabled(s, step)
    ensures step.StoreWaker? ==> Armed(Apply(s, step), s.lua.task)
  {
  }

  lemma {:induction false} RunKeeps(s: State, steps: seq<Step>, s': State)
    requires Inv(s) && RunsTo(s, steps, s')
    ensures Inv(s')
    decreases |steps|
  {
    hide Inv;
    if steps != [] {
      if OnHost(steps[0]) { HostStepKeeps(s, steps[0]); } else { LuaStepKeeps(s, steps[0]); }
      RunKeeps(Apply(s, steps[0]), steps[1..], s');
    }
  }

  /**
   At every moment, a receiver that waits with a value queued (or the channel
   closed) is awake, or some host thread is on its way to wake it.
   */
  lemma WakeOnItsWay(s: State, t: Task)
    requires Reachable(s) && t in s.waiting && t !in s.awake
    ensures s.buf == []
    ensures Ready(s) ==> WakeComing(s, t) || (t in s.fan && s.slot && SomePushed(s))
  {
    var threads: nat, steps :| RunsTo(Init(threads), steps, s);
    RunKeeps(Init(threads), steps, s);
  }

  /**
   Whenever no host thread is between a push and the end of its wake, a
   receiver that waits is awake if it could receive: a value is queued or
   put back, or the channel is closed.
   */
  lemma NoLostWakeup(s: State, t: Task)
    requires Reachable(s) && t in s.waiting
    requires forall i :: 0 <= i < |s.hosts| ==> s.hosts[i] == Idle
    requires s.queue != [] || s.buf != [] || s.closed
    ensures t in s.awake
  {
    if t !in s.awake { WakeOnItsWay(s, t); }
  }

  /** Values leave the host's queue in the order in which hosts sent them, each once, whoever receives. */
  lemma HostOrder(s: State)
    requires Reachable(s)
    ensures s.taken + s.queue == s.pushed
  {
    var threads: nat, steps :| RunsTo(Init(threads), steps, s);
    RunOrder(Init(threads), steps, s);
  }

  lemma {:induction false} RunOrder(s: State, steps: seq<Step>, s': State)
    requires s.taken + s.queue == s.pushed && RunsTo(s, steps, s')
    ensures s'.taken + s'.queue == s'.pushed
    decreases |steps|
  {
    if steps != [] {
      StepOrder(s, steps[0]);
      RunOrder(Apply(s, steps[0]), steps[1..], s');
    }
  }

  lemma StepOrder(s: State, step: Step)
    requires s.taken + s.queue == s.pushed && Enabled(s, step)
    ensures var s' := Apply(s, step); s'.taken + s'.queue == s'.pushed
  {
    if s.queue != [] { assert s.taken + [s.queue[0]] + s.queue[1..] == s.pushed; }
  }

  /** Every value that a host sent is once with a receiver, put back, or still queued. */
  lemma HostConserved(s: State)
    requires Reachable(s)
    ensures multiset(s.pushed) == s.held + multiset(s.buf) + multiset(s.queue)
  {
    var threads: nat, steps :| RunsTo(Init(threads), steps, s);
    RunConserves(Init(threads), steps, s);
  }

  ghost predicate Conserved(s: State) {
    multiset(s.pushed) == s.held + multiset(s.buf) + multiset(s.queue)
  }

  lemma {:induction false} RunConserves(s: State, steps: seq<Step>, s': State)
    requires Conserved(s) && RunsTo(s, steps, s')
    ensures Conserved(s')
    decreases |steps|
  {
    hide Conserved;
    if steps != [] {
      StepConserves(s, steps[0]);
      RunConserves(Apply(s, steps[0]), steps[1..], s');
    }
  }

  lemma StepConserves(s: State, step: Step)
    requires Conserved(s) && Enabled(s, step)
    ensures Conserved(Apply(s, step))
  {
    hide Pop, TakeBack;
    match step
    case Begin(t) =>
      if s.buf != [] { TakeBackConserves(s.(awake := s.awake - {t}, waiting := s.waiting - {t})); }
    case FirstPop => PopConserves(s, s.(lua := s.lua.(stage := FoundEmpty)));
    case SecondPop => PopConserves(s, s.(waiting := s.waiting + {s.lua.task}, lua := Free));
    case TryRecv =>
      PopConserves(s, s);
      if s.buf != [] { TakeBackConserves(s); }
    case PutBack(v) => assert multiset([v] + s.buf) == multiset{v} + multiset(s.buf);
    case _ =>
  }

  lemma PopConserves(s: State, next: State)
    requires Conserved(s) && Conserved(next)
    ensures Conserved(Pop(s, next))
  {
    if s.queue != [] { assert [s.queue[0]] + s.queue[1..] == s.queue; }
  }

  lemma TakeBackConserves(s: State)
    requires Conserved(s) && s.buf != []
    ensures Conserved(TakeBack(s))
  {
    assert [s.buf[0]] + s.buf[1..] == s.buf;
  }
}
