/** What single steps of the scopes bring about, and why a scope is cancelled. */
module ScopeSteps {
  import opened Basics
  import F = Forest
  import opened Scopes
  import opened ScopeDeadlines

  // ---- spawning ----------------------------------------------------------------------

  /** The scope still takes tasks: its body runs, or it drains and has time left. */
  ghost predicate TakesTasks(s: State, u: nat)
    requires u < |s.scopes|
  {
    var scope := s.scopes[u];
    scope.phase.Running? || (scope.phase.Draining? && scope.deadline.Some? && s.now < scope.deadline.value)
  }

  /** A spawn into `u` started one task in a new scope below `u`, and changed nothing else. */
  ghost predicate Started(s: State, s': State, u: nat, g: nat)
    requires u < |s.scopes|
  {
    && s'.now == s.now && |s'.scopes| == |s.scopes| + 1
    && (forall v :: 0 <= v < |s.scopes| && v != u ==> s'.scopes[v] == s.scopes[v])
    && s'.scopes[u] == s.scopes[u].(children := s'.scopes[u].children)
    && (var task := s'.scopes[|s.scopes|];
        && task.parent == Some(u) && task.grace == g && task.children == []
        && task.phase.Running? && task.deadline.None?
        && (task.cancelled <==> s.scopes[u].cancelled || s.scopes[u].phase.Draining?))
    && (var list := s'.scopes[u].children;
        && list != [] && list[|list| - 1] == |s.scopes|
        && forall c :: c in list <==> c == |s.scopes| || (c in s.scopes[u].children && !Done(s, c)))
  }

  /**
   In every reachable state, a spawn starts its task if and only if the scope
   is running, or draining with its deadline ahead; otherwise nothing changes.
   */
  lemma SpawnStarts(s: State, u: nat, g: nat)
    requires Reachable(s) && u < |s.scopes|
    ensures var s' := Apply(s, Spawn(u, g));
      if TakesTasks(s, u) then Started(s, s', u, g) else s' == s
  {
    ReachableInv(s);
    assert ScopeOk(s, u);
    hide Inv, Reachable;
  }

  /** A request gets a running scope of its own, not cancelled, with the grace given. */
  lemma RequestStarts(s: State, g: nat)
    ensures var s' := Apply(s, NewRoot(g));
      && s'.now == s.now && s'.scopes == s.scopes + [s'.scopes[|s.scopes|]]
      && var root := s'.scopes[|s.scopes|];
         && root.parent.None? && root.grace == g && root.children == []
         && root.phase.Running? && root.deadline.None? && !root.cancelled
  {
  }

  // ---- deadlines ---------------------------------------------------------------------

  /** The deadline of `u` is its grace from now, or an ancestor's deadline, whichever is first. */
  ghost predicate Clamped(s: State, u: nat, d: nat)
    requires u < |s.scopes|
  {
    && d <= s.now + s.scopes[u].grace
    && (forall a: nat :: a < |s.scopes| && Above(s.scopes, a, u) && a != u && s.scopes[a].deadline.Some? ==>
          d <= s.scopes[a].deadline.value)
    && (d == s.now + s.scopes[u].grace
        || exists a: nat :: a < |s.scopes| && Above(s.scopes, a, u) && a != u && s.scopes[a].deadline == Some(d))
  }

  lemma NewClamped(s: State, u: nat)
    requires u < |s.scopes|
    ensures Clamped(s, u, NewDeadline(s, u))
  {
    forall a: nat | a < |s.scopes| && Above(s.scopes, a, u) && a != u && s.scopes[a].deadline.Some?
      ensures NewDeadline(s, u) <= s.scopes[a].deadline.value
    {
      AncestorsBound(s.scopes, a, u);
    }
    if AncestorsDeadline(s.scopes, u).Some? {
      var b := AncestorsAttained(s.scopes, u);
    }
  }

  /** A scope that observes its cancel, or whose body ends, has a deadline then: the one it had, or a new one. */
  lemma DeadlineTaken(s: State, step: Step)
    requires Enabled(s, step) && (step.Observe? || step.EndBody?)
    ensures var s', u := Apply(s, step), step.scope;
      && |s'.scopes| == |s.scopes| && s'.scopes[u].deadline.Some?
      && (if s.scopes[u].deadline.Some? then s'.scopes[u].deadline == s.scopes[u].deadline
          else Clamped(s, u, s'.scopes[u].deadline.value))
      && s'.scopes[u].phase == (if step.EndBody? then Draining else Running)
      && forall v :: 0 <= v < |s.scopes| && v != u ==>
           s'.scopes[v].deadline == s.scopes[v].deadline && s'.scopes[v].phase == s.scopes[v].phase
  {
    hide Clamped, NewDeadline;
    NewClamped(s, step.scope);
  }

  // ---- cancelling --------------------------------------------------------------------

  /** A cancel reaches exactly the scope and what is below it. */
  lemma CancelReaches(s: State, u: nat)
    requires u < |s.scopes|
    ensures var s' := Apply(s, Cancel(u));
      && s'.now == s.now && |s'.scopes| == |s.scopes|
      && forall v: nat :: v < |s.scopes| ==>
           s'.scopes[v] == s.scopes[v].(cancelled := s.scopes[v].cancelled || Above(s.scopes, u, v))
  {
  }

  /** What a step may cancel `u` for: a call of cancel above it, or an ancestor that stopped running. */
  ghost predicate CauseNow(s: State, step: Step, s': State, u: nat, a: nat) {
    && a <= u && Above(s'.scopes, a, u)
    && (step == Cancel(a)
        || (a < u && a < |s'.scopes| && !s'.scopes[a].phase.Running?)
        || (a < |s.scopes| && s.scopes[a].cancelled))
  }

  lemma CancelCause(s: State, step: Step, u: nat) returns (a: nat)
    requires Inv(s) && Enabled(s, step) && u < |Apply(s, step).scopes| && Apply(s, step).scopes[u].cancelled
    ensures CauseNow(s, step, Apply(s, step), u, a)
  {
    var s' := Apply(s, step);
    assert Above(s'.scopes, u, u);
    if u < |s.scopes| && s.scopes[u].cancelled { return u; }
    StepAfter(s, step);
    match step
    case Cancel(v) =>
      StillAbove(s, s', v, u);
      return v;
    case EndBody(v) =>
      a := Drained(s, v, u);
    case Spawn(v, _) =>
      assert u == |s.scopes| && Above(s'.scopes, v, v) && Above(s'.scopes, v, u);
      return v;
    case _ => return u;
  }

  lemma StillAbove(s: State, s': State, a: nat, u: nat)
    requires After(s, s') && u < |s.scopes|
    ensures Above(s'.scopes, a, u) == Above(s.scopes, a, u)
    ensures Above(s.scopes, a, u) ==> a <= u
  {
    SameAbove(s, s', u);
    if Above(s.scopes, a, u) { F.AboveOlder(ParentsOf(s.scopes), a, u); }
  }

  /** The end of a body cancels only what is below the tasks in its list. */
  lemma BelowList(s: State, v: nat, u: nat) returns (c: nat)
    requires Enabled(s, EndBody(v)) && u < |s.scopes|
    requires Apply(s, EndBody(v)).scopes[u].cancelled && !s.scopes[u].cancelled
    ensures c in s.scopes[v].children && Above(s.scopes, c, u)
  {
    hide NewDeadline, Above, Done;
    var draining := s.scopes[v := WithDeadline(s, v).(phase := Draining)];
    c :| c in Members(s.scopes[v].children) && Above(draining, c, u);
    SameParents(s.scopes, draining, c, u);
  }

  lemma SameParents(a: seq<Scope>, b: seq<Scope>, x: nat, u: nat)
    requires |b| == |a| && forall v :: 0 <= v < |a| ==> b[v].parent == a[v].parent
    ensures Above(b, x, u) == Above(a, x, u)
  {
    assert ParentsOf(b) == ParentsOf(a);
  }

  lemma Drained(s: State, v: nat, u: nat) returns (a: nat)
    requires Inv(s) && Enabled(s, EndBody(v)) && u < |s.scopes|
    requires Apply(s, EndBody(v)).scopes[u].cancelled && !s.scopes[u].cancelled
    ensures CauseNow(s, EndBody(v), Apply(s, EndBody(v)), u, a)
  {
    var c := BelowList(s, v, u);
    ChildBelow(s, v, c);
    StepAfter(s, EndBody(v));
    DeadlineTaken(s, EndBody(v));
    hide Inv, Apply, Enabled;
    StillAbove(s, Apply(s, EndBody(v)), c, u);
    F.AboveTrans(ParentsOf(s.scopes), v, c, u);
    StillAbove(s, Apply(s, EndBody(v)), v, u);
    return v;
  }

  lemma ChildBelow(s: State, v: nat, c: nat)
    requires Inv(s) && v < |s.scopes| && c in s.scopes[v].children
    ensures Above(s.scopes, v, c) && v < c
  {
    assert ScopeOk(s, v);
    assert ScopeOk(s, c);
    assert Above(s.scopes, v, v);
  }

  /** Somebody called cancel on `a`, or `a` is an ancestor of `u` that is no longer running, or was cancelled before. */
  ghost predicate Cause(s: State, steps: seq<Step>, s': State, u: nat, a: nat) {
    && a <= u && Above(s'.scopes, a, u)
    && (Cancel(a) in steps
        || (a < u && a < |s'.scopes| && !s'.scopes[a].phase.Running?)
        || (a < |s.scopes| && s.scopes[a].cancelled))
  }

  lemma {:induction false} CauseInRun(s: State, steps: seq<Step>, s': State, u: nat) returns (a: nat)
    requires Inv(s) && RunsTo(s, steps, s') && u < |s'.scopes| && s'.scopes[u].cancelled
    ensures Cause(s, steps, s', u, a)
    decreases |steps|
  {
    assert Above(s'.scopes, u, u);
    if steps == [] { return u; }
    hide Apply, Enabled, Above, Inv;
    var s1 := Apply(s, steps[0]);
    StepInv(s, steps[0]);
    StepAfter(s, steps[0]);
    var b := CauseInRun(s1, steps[1..], s', u);
    assert forall x :: x in steps <==> x == steps[0] || x in steps[1..];
    if Cancel(b) in steps[1..] || (b < u && b < |s'.scopes| && !s'.scopes[b].phase.Running?) { return b; }
    a := CancelCause(s, steps[0], b);
    RunKeeps(s1, steps[1..], s');
    CauseLifts(s, steps, s1, s', u, b, a);
  }

  lemma CauseLifts(s: State, steps: seq<Step>, s1: State, s': State, u: nat, b: nat, a: nat)
    requires steps != [] && b <= u && Above(s'.scopes, b, u) && b < |s1.scopes| && After(s1, s')
    requires CauseNow(s, steps[0], s1, b, a)
    ensures Cause(s, steps, s', u, a)
  {
    StillAbove(s1, s', a, b);
    F.AboveTrans(ParentsOf(s'.scopes), a, b, u);
    if a < |s1.scopes| { assert ScopeAfter(s1.scopes[a], s'.scopes[a]); }
  }

  /**
   No scope is cancelled without cause: in every run, cancel was called on a
   cancelled scope or on an ancestor, or a proper ancestor's body has ended.
   */
  lemma CancelledForCause(steps: seq<Step>, s: State, u: nat) returns (a: nat)
    requires RunsTo(Init(), steps, s) && u < |s.scopes| && s.scopes[u].cancelled
    ensures Above(s.scopes, a, u) && a < |s.scopes|
    ensures Cancel(a) in steps || (a != u && !s.scopes[a].phase.Running?)
  {
    a := CauseInRun(Init(), steps, s, u);
  }
}
