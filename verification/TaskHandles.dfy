/**
 The result of one spawned task, and everyone who may join its handle: Lua
 joins, select cases on the handle, and takes that are undone.  A step is
 what happens between two awaits; steps interleave in any order.
 */
module TaskHandles {
  import opened Basics

  type Values = int
  type Joiner = nat

  /** How a body ended: dropped, returned under `pcall` (`ok` or not), or failed outside it. */
  datatype BodyOut = Dropped | Returned(ok: bool, values: Values) | Raised(error: Values)

  /** The result of a task: `None` means cancelled. */
  function Result(out: BodyOut, tokenCancelled: bool): (r: Option<Values>)
  {
    match out
    case Dropped => None
    case Returned(ok, values) => if !ok && tokenCancelled then None else Some(values)
    case Raised(error) => if tokenCancelled then None else Some(error)
  }

  /** The finished flag, the result slot, the handle's joined flag, and whether the registry knows the task. */
  datatype Core = Core(done: bool, slot: Option<Values>, joined: bool, registered: bool)

  /** Take the result of a finished task (`TaskArm::join`, the end of `join_raw`). */
  function TakeResult(c: Core): (Core, Option<Values>) {
    (c.(slot := None, joined := true, registered := false), c.slot)
  }

  /** Give it back (`TaskArm::untake`). */
  function GiveBack(c: Core, out: Option<Values>): Core {
    c.(slot := out, joined := false, registered := true)
  }

  /** How the body of a task ended, and whether the task's token was cancelled by then. */
  datatype End = End(out: BodyOut, tokenCancelled: bool)

  /** The body was dropped, or failed under a cancelled token. */
  predicate CutShort(end: End) {
    end.out.Dropped? || (end.tokenCancelled && (end.out.Raised? || !end.out.ok))
  }

  /**
   `ended` is how the body ended and `produced` the result it left; `waiting` the joins in
   progress; `taken` what select cases took and may still give back;
   `delivered` who got the result for good, and what they got.
   */
  datatype State = State(
    core: Core, ended: Option<End>, produced: Option<Values>, waiting: set<Joiner>,
    taken: map<Joiner, Option<Values>>, delivered: seq<(Joiner, Option<Values>)>)

  datatype Step =
    | Finish(out: BodyOut, tokenCancelled: bool)
    | Join(j: Joiner) | EndJoin(j: Joiner) | DropJoin(j: Joiner)
    | PollCase(j: Joiner) | Keep(j: Joiner) | Untake(j: Joiner)
    | Collect

  function Init(): State {
    State(Core(false, None, false, true), None, None, {}, map[], [])
  }

  predicate Enabled(s: State, step: Step) {
    match step
    case Finish(_, _) => !s.core.done
    case Join(j) => j !in s.waiting && j !in s.taken
    case EndJoin(j) => j in s.waiting && s.core.done
    case DropJoin(j) => j in s.waiting
    case PollCase(j) => j !in s.waiting && j !in s.taken && s.core.done
    case Keep(j) => j in s.taken
    case Untake(j) => j in s.taken
    case Collect => !s.core.joined
  }

  function Apply(s: State, step: Step): State
    requires Enabled(s, step)
  {
    match step
    case Finish(out, tokenCancelled) =>
      var r := Result(out, tokenCancelled);
      s.(core := s.core.(done := true, slot := r), ended := Some(End(out, tokenCancelled)), produced := r)
    case Join(j) =>
      // "task already joined"; or joined from now on, with the wait failing when the registry forgot the task
      if s.core.joined then s
      else s.(core := s.core.(joined := true), waiting := if s.core.registered then s.waiting + {j} else s.waiting)
    case EndJoin(j) =>
      var (core, out) := TakeResult(s.core);
      s.(core := core, waiting := s.waiting - {j}, delivered := s.delivered + [(j, out)])
    case DropJoin(j) => s.(waiting := s.waiting - {j})
    case PollCase(j) =>
      if s.core.joined then s
      else
        var (core, out) := TakeResult(s.core);
        s.(core := core, taken := s.taken[j := out])
    case Keep(j) => s.(taken := s.taken - {j}, delivered := s.delivered + [(j, s.taken[j])])
    case Untake(j) => s.(core := GiveBack(s.core, s.taken[j]), taken := s.taken - {j})
    case Collect => s.(core := s.core.(registered := false))
  }

  ghost predicate RunsTo(s: State, steps: seq<Step>, s': State)
    decreases |steps|
  {
    if steps == [] then s' == s
    else Enabled(s, steps[0]) && RunsTo(Apply(s, steps[0]), steps[1..], s')
  }

  ghost predicate Reachable(s: State) {
    exists steps: seq<Step> :: RunsTo(Init(), steps, s)
  }

  /** Who is joining, or has joined: at most one, and only while the handle is marked joined. */
  ghost predicate OneJoiner(s: State) {
    && (!s.core.joined ==> s.waiting == {} && s.taken == map[] && s.delivered == [])
    && (s.delivered != [] ==> s.waiting == {} && s.taken == map[] && |s.delivered| == 1)
    && (s.taken != map[] ==> s.waiting == {})
    && (forall i, j :: i in s.waiting && j in s.waiting ==> i == j)
    && (forall i, j :: i in s.taken && j in s.taken ==> i == j)
  }

  /** The result is in the slot until it is taken, and whoever takes it gets it. */
  ghost predicate ResultKept(s: State) {
    && (s.core.done <==> s.ended.Some?)
    && (s.ended.Some? ==> s.produced == Result(s.ended.value.out, s.ended.value.tokenCancelled))
    && (s.core.done && s.taken == map[] && s.delivered == [] ==> s.core.slot == s.produced)
    && (s.taken != map[] || s.delivered != [] ==> s.core.done)
    && (forall j :: j in s.taken ==> s.taken[j] == s.produced)
    && (forall k :: 0 <= k < |s.delivered| ==> s.delivered[k].1 == s.produced)
  }

  ghost predicate Inv(s: State) {
    OneJoiner(s) && ResultKept(s)
  }

  lemma StepInv(s: State, step: Step)
    requires Inv(s) && Enabled(s, step)
    ensures Inv(Apply(s, step))
  {
    var s' := Apply(s, step);
    if step.Keep? || step.Untake? { assert s'.taken == map[]; }
    if step.EndJoin? || step.DropJoin? { assert s'.waiting == {}; }
  }

  lemma {:induction false} RunKeeps(s: State, steps: seq<Step>, s': State)
    requires Inv(s) && RunsTo(s, steps, s')
    ensures Inv(s')
    decreases |steps|
  {
    hide Inv, Enabled, Apply;
    if steps != [] {
      StepInv(s, steps[0]);
      RunKeeps(Apply(s, steps[0]), steps[1..], s');
    }
  }

  lemma ReachableInv(s: State)
    requires Reachable(s)
    ensures Inv(s)
  {
    var steps :| RunsTo(Init(), steps, s);
    RunKeeps(Init(), steps, s);
  }

  // ---- the theorems -------------------------------------------------------------------

  /** A task's result goes to at most one joiner, who gets exactly what the task produced. */
  lemma DeliveredAtMostOnce(s: State)
    requires Reachable(s)
    ensures |s.delivered| <= 1
    ensures forall k :: 0 <= k < |s.delivered| ==> s.core.done && s.delivered[k].1 == s.produced
    ensures s.delivered != [] ==> s.waiting == {} && s.taken == map[]
  {
    ReachableInv(s);
  }

  /** A joiner sees `CANCELLED` if and only if the body was dropped, or failed under a cancelled token. */
  lemma CancelledIsTrue(s: State, j: Joiner, out: Option<Values>)
    requires Reachable(s) && (j, out) in s.delivered
    ensures s.ended.Some? && (out.None? <==> CutShort(s.ended.value))
  {
    ReachableInv(s);
  }

  /** What a joiner should get: nothing if the body was cut short, else what it returned or raised. */
  predicate Yields(end: End, out: Option<Values>) {
    && (CutShort(end) ==> out.None?)
    && (!CutShort(end) && end.out.Returned? ==> out == Some(end.out.values))
    && (!CutShort(end) && end.out.Raised? ==> out == Some(end.out.error))
  }

  lemma {:induction false} EndedInRun(s: State, steps: seq<Step>, s': State)
    requires RunsTo(s, steps, s') && s'.ended.Some?
    ensures s'.ended == s.ended || Finish(s'.ended.value.out, s'.ended.value.tokenCancelled) in steps
    decreases |steps|
  {
    if steps != [] {
      EndedInRun(Apply(s, steps[0]), steps[1..], s');
      assert forall x :: x in steps[1..] ==> x in steps;
    }
  }

  /**
   The values arrive: in every run, whoever joined for good got what the body
   of the task returned or raised in that run, or `None` if it was cut short.
   */
  lemma DeliversWhatTheBodyLeft(steps: seq<Step>, s: State, j: Joiner, out: Option<Values>) returns (end: End)
    requires RunsTo(Init(), steps, s) && (j, out) in s.delivered
    ensures Finish(end.out, end.tokenCancelled) in steps && Yields(end, out)
  {
    ReachableInv(s);
    EndedInRun(Init(), steps, s);
    end := s.ended.value;
  }

  /**
   The first join of a registered task waits, finished or not, and the task
   can be joined by nobody else from then on; any later join, and any case,
   finds the handle joined and changes nothing.
   */
  lemma FirstJoinWaits(s: State, j: Joiner)
    requires Reachable(s) && Enabled(s, Join(j))
    ensures var s1 := Apply(s, Join(j));
      && s1.core == s.core.(joined := true) && s1.taken == s.taken && s1.delivered == s.delivered
      && s1.waiting == (if !s.core.joined && s.core.registered then {j} else s.waiting)
      && (forall k :: Enabled(s1, Join(k)) ==> Apply(s1, Join(k)) == s1)
      && (forall k :: Enabled(s1, PollCase(k)) ==> Apply(s1, PollCase(k)) == s1)
  {
    ReachableInv(s);
  }

  /** When the task is done, whoever waits for it gets what its body left, for good. */
  lemma WaiterGets(s: State, j: Joiner)
    requires Reachable(s) && j in s.waiting && s.core.done
    ensures Enabled(s, EndJoin(j)) && s.ended.Some?
    ensures var s1 := Apply(s, EndJoin(j));
      && |s1.delivered| == 1 && s1.delivered[0].0 == j && Yields(s.ended.value, s1.delivered[0].1)
      && s1.waiting == {} && s1.taken == map[] && s1.core.slot.None? && !s1.core.registered
  {
    ReachableInv(s);
  }

  /** A case on a finished task that nobody joined takes what its body left, and hands on the same when it is kept. */
  lemma CaseGets(s: State, j: Joiner)
    requires Reachable(s) && Enabled(s, PollCase(j)) && !s.core.joined
    ensures s.ended.Some?
    ensures var s1 := Apply(s, PollCase(j));
      && s1.core.joined && s1.taken.Keys == {j} && Yields(s.ended.value, s1.taken[j])
      && s1.waiting == {} && s1.delivered == []
      && Enabled(s1, Keep(j)) && Apply(s1, Keep(j)).delivered == [(j, s1.taken[j])]
  {
    ReachableInv(s);
  }

  /** An undone take leaves the handle joinable, with the same result for the next joiner. */
  lemma UntakeRejoins(s: State, j: Joiner, next: Joiner)
    requires Reachable(s) && j in s.taken
    ensures var s' := Apply(s, Untake(j));
      && !s'.core.joined && s'.core.registered && s'.core.slot == s.produced
      && Enabled(s', PollCase(next)) && Apply(s', PollCase(next)).taken == map[next := s.produced]
      && Enabled(s', Join(next)) && Enabled(Apply(s', Join(next)), EndJoin(next))
      && Apply(Apply(s', Join(next)), EndJoin(next)).delivered == [(next, s.produced)]
  {
    ReachableInv(s);
    assert Apply(s, Untake(j)).taken == map[];
  }
}
