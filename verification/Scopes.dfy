/**
 The tree of scopes under the coroutine requests and tasks of a thread.

 Every request and task runs in a scope.  A step is what one poll of one
 body does to the scopes, a call through a scope handle, a cancel, or the
 passing of time; steps of different scopes interleave in any order.
 A task is done when its scope is closed: both happen in one poll.
 */
module Scopes {
  import opened Basics
  import F = Forest

  datatype Phase = Running | Draining | Closed

  /** `cancelled` is the flag of the scope's token; `children` the tasks in its list. */
  datatype Scope = Scope(
    parent: Option<nat>, grace: nat, phase: Phase, deadline: Option<nat>, cancelled: bool, children: seq<nat>)

  datatype State = State(scopes: seq<Scope>, now: nat)

  datatype Step =
    | NewRoot(grace: nat)
    | Spawn(scope: nat, grace: nat)
    | Cancel(scope: nat)
    | Observe(scope: nat)
    | EndBody(scope: nat)
    | Close(scope: nat)
    | Tick

  function Init(): State {
    State([], 0)
  }

  predicate Done(s: State, c: nat) {
    c < |s.scopes| && s.scopes[c].phase.Closed?
  }

  /** The parent of each scope. */
  function ParentsOf(scopes: seq<Scope>): (r: F.Parents)
    ensures |r| == |scopes| && forall u :: 0 <= u < |r| ==> r[u] == scopes[u].parent
  {
    seq(|scopes|, u requires 0 <= u < |scopes| => scopes[u].parent)
  }

  /** `a` is `u` or an ancestor of it. */
  predicate Above(scopes: seq<Scope>, a: nat, u: nat) {
    F.Above(ParentsOf(scopes), a, u)
  }

  function Earlier(a: Option<nat>, b: Option<nat>): Option<nat> {
    if a.None? then b else if b.None? then a else Some(if a.value < b.value then a.value else b.value)
  }

  /** The earliest deadline among the proper ancestors of `u` (`ancestors_deadline`). */
  function AncestorsDeadline(scopes: seq<Scope>, u: nat): Option<nat>
    decreases u
  {
    if u < |scopes| && scopes[u].parent.Some? && scopes[u].parent.value < u then
      var p := scopes[u].parent.value;
      Earlier(scopes[p].deadline, AncestorsDeadline(scopes, p))
    else None
  }

  /** The deadline that `u` takes now: its grace, clamped to its ancestors. */
  function NewDeadline(s: State, u: nat): (d: nat)
    requires u < |s.scopes|
  {
    Earlier(Some(s.now + s.scopes[u].grace), AncestorsDeadline(s.scopes, u)).value
  }

  /** A spawn into `u` starts nothing. */
  predicate OutOfTime(s: State, u: nat)
    requires u < |s.scopes|
  {
    match s.scopes[u].phase
    case Running => false
    case Draining => s.scopes[u].deadline.Some? && s.scopes[u].deadline.value <= s.now
    case Closed => true
  }

  /** The entries of `list` that are not done (`retain`). */
  function Unfinished(s: State, list: seq<nat>): (r: seq<nat>)
    ensures forall c :: c in r <==> c in list && !Done(s, c)
  {
    if list == [] then []
    else
      var rest := Unfinished(s, list[1..]);
      assert forall c :: c in list <==> c == list[0] || c in list[1..];
      if Done(s, list[0]) then rest else [list[0]] + rest
  }

  function SetScope(s: State, u: nat, scope: Scope): State
    requires u < |s.scopes|
  {
    s.(scopes := s.scopes[u := scope])
  }

  function Members(list: seq<nat>): set<nat> {
    set c | c in list
  }

  /** One of `roots` is `u` or an ancestor of it. */
  predicate Covers(scopes: seq<Scope>, roots: set<nat>, u: nat) {
    exists a :: a in roots && Above(scopes, a, u)
  }

  /** Cancel the tokens of `roots` and of every scope below them. */
  function CancelBelow(scopes: seq<Scope>, roots: set<nat>): (r: seq<Scope>)
    ensures |r| == |scopes|
    ensures forall u :: 0 <= u < |r| ==>
      r[u] == scopes[u].(cancelled := scopes[u].cancelled || Covers(scopes, roots, u))
  {
    seq(|scopes|, u requires 0 <= u < |scopes| =>
      scopes[u].(cancelled := scopes[u].cancelled || Covers(scopes, roots, u)))
  }

  predicate Enabled(s: State, step: Step) {
    match step
    case NewRoot(_) => true
    case Spawn(u, _) => u < |s.scopes|
    case Cancel(u) => u < |s.scopes|
    case Observe(u) =>
      u < |s.scopes| && s.scopes[u].phase.Running? && s.scopes[u].cancelled && s.scopes[u].deadline.None?
    case EndBody(u) => u < |s.scopes| && s.scopes[u].phase.Running?
    case Close(u) =>
      u < |s.scopes| && s.scopes[u].phase.Draining? && forall c :: c in s.scopes[u].children ==> Done(s, c)
    case Tick => true
  }

  /** The scope `u` with a deadline, taken now if it has none. */
  function WithDeadline(s: State, u: nat): Scope
    requires u < |s.scopes|
  {
    if s.scopes[u].deadline.Some? then s.scopes[u] else s.scopes[u].(deadline := Some(NewDeadline(s, u)))
  }

  function Apply(s: State, step: Step): State
    requires Enabled(s, step)
  {
    match step
    case NewRoot(g) => s.(scopes := s.scopes + [Scope(None, g, Running, None, false, [])])
    case Spawn(u, g) =>
      if OutOfTime(s, u) then s
      else
        var scope := s.scopes[u];
        var child := Scope(Some(u), g, Running, None, scope.cancelled || scope.phase.Draining?, []);
        var grown := scope.(children := Unfinished(s, scope.children) + [|s.scopes|]);
        s.(scopes := s.scopes[u := grown] + [child])
    case Cancel(u) => s.(scopes := CancelBelow(s.scopes, {u}))
    case Observe(u) => SetScope(s, u, WithDeadline(s, u))
    case EndBody(u) =>
      var draining := s.scopes[u := WithDeadline(s, u).(phase := Draining)];
      s.(scopes := CancelBelow(draining, Members(s.scopes[u].children)))
    case Close(u) => SetScope(s, u, s.scopes[u].(phase := Closed))
    case Tick => s.(now := s.now + 1)
  }

  ghost predicate RunsTo(s: State, steps: seq<Step>, s': State)
    decreases |steps|
  {
    if steps == [] then s' == s
    else Enabled(s, steps[0]) && RunsTo(Apply(s, steps[0]), steps[1..], s')
  }

  ghost predicate Reachable(s: State) {
    exists steps: seq<Step> :: RunsTo(Init(), steps, s)
  }

  // ---- the invariant -------------------------------------------------------------

  /** The scope `u` and its parent agree. */
  ghost predicate ScopeOk(s: State, u: nat)
    requires u < |s.scopes|
  {
    var scope := s.scopes[u];
    && (scope.phase.Running? || scope.deadline.Some?)
    && (forall c :: c in scope.children ==> c < |s.scopes| && s.scopes[c].parent == Some(u))
    && (scope.parent.Some? ==>
          && scope.parent.value < u
          && var parent := s.scopes[scope.parent.value];
             && (parent.cancelled ==> scope.cancelled)
             && (!scope.phase.Closed? ==>
                   && u in parent.children && !parent.phase.Closed?
                   && (parent.phase.Draining? ==> scope.cancelled)))
  }

  ghost predicate Inv(s: State) {
    forall u {:trigger s.scopes[u]} :: 0 <= u < |s.scopes| ==> ScopeOk(s, u)
  }

  lemma {:induction false} AboveSame(a: seq<Scope>, b: seq<Scope>, x: nat, u: nat)
    requires |a| <= |b| && forall v :: 0 <= v < |a| ==> a[v].parent == b[v].parent
    requires u < |a|
    ensures Above(b, x, u) == Above(a, x, u)
    decreases u
  {
    if x != u && a[u].parent.Some? && a[u].parent.value < u { AboveSame(a, b, x, a[u].parent.value); }
  }

  lemma CoversChild(scopes: seq<Scope>, roots: set<nat>, u: nat)
    requires u < |scopes| && scopes[u].parent.Some? && scopes[u].parent.value < u
    ensures Covers(scopes, roots, scopes[u].parent.value) ==> Covers(scopes, roots, u)
    ensures u in roots ==> Covers(scopes, roots, u)
  {
    if Covers(scopes, roots, scopes[u].parent.value) {
      var a :| a in roots && Above(scopes, a, scopes[u].parent.value);
      assert Above(scopes, a, u);
    }
    assert Above(scopes, u, u);
  }

  lemma CancelOk(s: State, roots: set<nat>)
    requires Inv(s)
    ensures Inv(s.(scopes := CancelBelow(s.scopes, roots)))
  {
    hide Above, Covers;
    var s' := s.(scopes := CancelBelow(s.scopes, roots));
    forall u | 0 <= u < |s'.scopes| ensures ScopeOk(s', u) {
      assert ScopeOk(s, u);
      if s.scopes[u].parent.Some? { CoversChild(s.scopes, roots, u); }
    }
  }

  /** Draining `u` and cancelling its tasks keeps the scope `v` in order. */
  lemma EndBodyOne(s: State, u: nat, v: nat)
    requires Enabled(s, EndBody(u)) && v < |s.scopes| && ScopeOk(s, v)
    ensures ScopeOk(Apply(s, EndBody(u)), v)
  {
    hide Above, Covers, NewDeadline, Done;
    var roots := Members(s.scopes[u].children);
    var draining := s.scopes[u := WithDeadline(s, u).(phase := Draining)];
    if s.scopes[v].parent.Some? {
      CoversChild(draining, roots, v);
    }
  }

  lemma EndBodyOk(s: State, u: nat)
    requires Inv(s) && Enabled(s, EndBody(u))
    ensures Inv(Apply(s, EndBody(u)))
  {
    hide ScopeOk, Above, Covers, NewDeadline, Done;
    var s' := Apply(s, EndBody(u));
    forall v: nat | v < |s'.scopes| ensures ScopeOk(s', v) {
      assert s.scopes[v] == s.scopes[v];
      EndBodyOne(s, u, v);
    }
  }

  lemma SpawnOk(s: State, u: nat, g: nat)
    requires Inv(s) && Enabled(s, Spawn(u, g))
    ensures Inv(Apply(s, Spawn(u, g)))
  {
    var s' := Apply(s, Spawn(u, g));
    forall v | 0 <= v < |s'.scopes| ensures ScopeOk(s', v) {
      if v < |s.scopes| { assert ScopeOk(s, v); }
    }
  }

  lemma StepInv(s: State, step: Step)
    requires Inv(s) && Enabled(s, step)
    ensures Inv(Apply(s, step))
  {
    hide NewDeadline, Unfinished;
    var s' := Apply(s, step);
    match step
    case Cancel(u) => CancelOk(s, {u});
    case EndBody(u) => EndBodyOk(s, u);
    case Spawn(u, g) => SpawnOk(s, u, g);
    case _ =>
      forall v | 0 <= v < |s'.scopes| ensures ScopeOk(s', v) {
        if v < |s.scopes| { assert ScopeOk(s, v); }
      }
  }

  // ---- nothing is undone ------------------------------------------------------------

  function Rank(phase: Phase): nat {
    match phase
    case Running => 0
    case Draining => 1
    case Closed => 2
  }

  /** A scope only moves on: its phase advances, its deadline is written once, its cancel stays. */
  ghost predicate ScopeAfter(a: Scope, b: Scope) {
    && b.parent == a.parent && b.grace == a.grace
    && Rank(a.phase) <= Rank(b.phase)
    && (a.deadline.Some? ==> b.deadline == a.deadline)
    && (a.cancelled ==> b.cancelled)
  }

  ghost predicate After(s: State, s': State) {
    && s.now <= s'.now && |s.scopes| <= |s'.scopes|
    && forall u {:trigger s'.scopes[u]} :: 0 <= u < |s.scopes| ==> ScopeAfter(s.scopes[u], s'.scopes[u])
  }

  lemma StepAfter(s: State, step: Step)
    requires Enabled(s, step)
    ensures After(s, Apply(s, step))
  {
    hide NewDeadline, Unfinished, Above;
  }

  lemma AfterTrans(a: State, b: State, c: State)
    requires After(a, b) && After(b, c)
    ensures After(a, c)
  {
    forall u | 0 <= u < |a.scopes| ensures ScopeAfter(a.scopes[u], c.scopes[u]) {
      assert ScopeAfter(a.scopes[u], b.scopes[u]) && ScopeAfter(b.scopes[u], c.scopes[u]);
    }
  }

  lemma {:induction false} RunKeeps(s: State, steps: seq<Step>, s': State)
    requires Inv(s) && RunsTo(s, steps, s')
    ensures Inv(s') && After(s, s')
    decreases |steps|
  {
    hide Inv, Enabled, Apply;
    if steps != [] {
      StepInv(s, steps[0]);
      StepAfter(s, steps[0]);
      RunKeeps(Apply(s, steps[0]), steps[1..], s');
      AfterTrans(s, Apply(s, steps[0]), s');
    }
  }

  lemma ReachableInv(s: State)
    requires Reachable(s)
    ensures Inv(s)
  {
    var steps :| RunsTo(Init(), steps, s);
    RunKeeps(Init(), steps, s);
  }

  // ---- nothing outlives its root -------------------------------------------------------

  /**
   When a scope is closed (its request resolved or its task is done), every
   scope below it is closed, at any depth, and stays so: tasks spawned while
   it was draining are covered, and later spawns start nothing.
   */
  lemma NothingOutlives(s: State, a: nat, u: nat)
    requires Reachable(s) && u < |s.scopes| && a < |s.scopes|
    requires Above(s.scopes, a, u) && s.scopes[a].phase.Closed?
    ensures s.scopes[u].phase.Closed?
  {
    ReachableInv(s);
    ClosedBelow(s, a, u);
  }

  /** A closed scope stays closed over any further run, and nothing new ever runs below it. */
  lemma ClosedForGood(s: State, steps: seq<Step>, s': State, a: nat, u: nat)
    requires Reachable(s) && RunsTo(s, steps, s') && a < |s.scopes| && s.scopes[a].phase.Closed?
    requires u < |s'.scopes| && Above(s'.scopes, a, u)
    ensures u < |s.scopes| && s'.scopes[u].phase.Closed?
  {
    ReachableInv(s);
    RunKeeps(s, steps, s');
    RunsReachable(s, steps, s');
    NothingOutlives(s', a, u);
    NothingNewBelow(s, steps, s', a, u);
  }

  lemma {:induction false} RunsOn(s: State, steps: seq<Step>, s': State, more: seq<Step>, s'': State)
    requires RunsTo(s, steps, s') && RunsTo(s', more, s'')
    ensures RunsTo(s, steps + more, s'')
    decreases |steps|
  {
    if steps == [] {
      assert steps + more == more;
    } else {
      RunsOn(Apply(s, steps[0]), steps[1..], s', more, s'');
      assert (steps + more)[1..] == steps[1..] + more;
    }
  }

  lemma RunsReachable(s: State, steps: seq<Step>, s': State)
    requires Reachable(s) && RunsTo(s, steps, s')
    ensures Reachable(s')
  {
    var first :| RunsTo(Init(), first, s);
    RunsOn(Init(), first, s, steps, s');
  }

  lemma {:induction false} NothingNewBelow(s: State, steps: seq<Step>, s': State, a: nat, u: nat)
    requires Inv(s) && RunsTo(s, steps, s') && a < |s.scopes| && s.scopes[a].phase.Closed?
    requires u < |s'.scopes| && Above(s'.scopes, a, u)
    ensures u < |s.scopes|
    decreases |steps|
  {
    if steps != [] {
      var s1 := Apply(s, steps[0]);
      StepInv(s, steps[0]);
      StepAfter(s, steps[0]);
      assert ScopeAfter(s.scopes[a], s1.scopes[a]);
      NothingNewBelow(s1, steps[1..], s', a, u);
      RunKeeps(s1, steps[1..], s');
      AboveBack(s1, s', a, u);
      if u == |s.scopes| { NewNotBelow(s, steps[0], a); }
    }
  }

  lemma AboveBack(s: State, s': State, a: nat, u: nat)
    requires After(s, s') && u < |s.scopes| && Above(s'.scopes, a, u)
    ensures Above(s.scopes, a, u)
  {
    assert forall v :: 0 <= v < |s.scopes| ==> ScopeAfter(s.scopes[v], s'.scopes[v]);
    AboveSame(s.scopes, s'.scopes, a, u);
  }

  /** A new scope is never below a closed one. */
  lemma NewNotBelow(s: State, step: Step, a: nat)
    requires Inv(s) && Enabled(s, step) && a < |s.scopes| && s.scopes[a].phase.Closed?
    requires |Apply(s, step).scopes| == |s.scopes| + 1
    ensures !Above(Apply(s, step).scopes, a, |s.scopes|)
  {
    var s' := Apply(s, step);
    if step.Spawn? && Above(s'.scopes, a, |s.scopes|) {
      StepAfter(s, step);
      AboveBack(s, s', a, step.scope);
      ClosedBelow(s, a, step.scope);
    }
  }

  lemma {:induction false} ClosedBelow(s: State, a: nat, u: nat)
    requires Inv(s) && u < |s.scopes| && a < |s.scopes|
    requires Above(s.scopes, a, u) && s.scopes[a].phase.Closed?
    ensures s.scopes[u].phase.Closed?
    decreases u
  {
    if a != u {
      assert ScopeOk(s, u);
      ClosedBelow(s, a, s.scopes[u].parent.value);
    }
  }
}
