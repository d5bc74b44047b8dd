/** The deadlines of a tree of scopes, and what a draining scope guarantees. */
module ScopeDeadlines {
  import opened Basics
  import F = Forest
  import opened Scopes

  // ---- ancestors --------------------------------------------------------------------

  /** The walk over the ancestors finds a deadline no later than any of theirs, and one that is theirs. */
  lemma {:induction false} AncestorsBound(scopes: seq<Scope>, a: nat, u: nat)
    requires Above(scopes, a, u) && a != u && a < |scopes| && scopes[a].deadline.Some?
    ensures AncestorsDeadline(scopes, u).Some? && AncestorsDeadline(scopes, u).value <= scopes[a].deadline.value
    decreases u
  {
    var p := scopes[u].parent.value;
    if a != p { AncestorsBound(scopes, a, p); }
  }

  lemma {:induction false} AncestorsAttained(scopes: seq<Scope>, u: nat) returns (b: nat)
    requires u < |scopes| && AncestorsDeadline(scopes, u).Some?
    ensures Above(scopes, b, u) && b < u && scopes[b].deadline == AncestorsDeadline(scopes, u)
    decreases u
  {
    var p := scopes[u].parent.value;
    if scopes[p].deadline == AncestorsDeadline(scopes, u) {
      b := p;
    } else {
      b := AncestorsAttained(scopes, p);
    }
  }

  // ---- one deadline for the tree -----------------------------------------------------

  /** No ancestor of `u` has a shorter grace. */
  ghost predicate GraceFits(scopes: seq<Scope>, u: nat)
    requires u < |scopes|
  {
    forall a: nat :: a < |scopes| && Above(scopes, a, u) ==> scopes[u].grace <= scopes[a].grace
  }

  /** `u` ends no later than `a`, if both have a deadline. */
  ghost predicate Ordered(scopes: seq<Scope>, a: nat, u: nat) {
    a < |scopes| && u < |scopes| && scopes[a].deadline.Some? && scopes[u].deadline.Some? ==>
      scopes[u].deadline.value <= scopes[a].deadline.value
  }

  ghost predicate DeadlineOk(s: State, u: nat)
    requires u < |s.scopes|
  {
    s.scopes[u].deadline.Some? ==>
      && s.scopes[u].deadline.value <= s.now + s.scopes[u].grace
      && (GraceFits(s.scopes, u) ==> forall a: nat :: Above(s.scopes, a, u) ==> Ordered(s.scopes, a, u))
  }

  ghost predicate Deadlines(s: State) {
    forall u {:trigger s.scopes[u]} :: 0 <= u < |s.scopes| ==> DeadlineOk(s, u)
  }

  /** Steps that take no deadline keep them all in order. */
  lemma SameDeadlines(s: State, s': State)
    requires Deadlines(s) && After(s, s')
    requires forall u :: 0 <= u < |s.scopes| ==> s'.scopes[u].deadline == s.scopes[u].deadline
    requires forall u :: |s.scopes| <= u < |s'.scopes| ==> s'.scopes[u].deadline.None?
    ensures Deadlines(s')
  {
    forall u | 0 <= u < |s'.scopes| ensures DeadlineOk(s', u) {
      if u < |s.scopes| {
        assert DeadlineOk(s, u) && ScopeAfter(s.scopes[u], s'.scopes[u]);
        SameAbove(s, s', u);
        if GraceFits(s'.scopes, u) { SameGrace(s, s', u); }
      }
    }
  }

  lemma SameAbove(s: State, s': State, u: nat)
    requires After(s, s') && u < |s.scopes|
    ensures forall a: nat :: Above(s'.scopes, a, u) == Above(s.scopes, a, u)
  {
    assert forall v :: 0 <= v < |s.scopes| ==> ScopeAfter(s.scopes[v], s'.scopes[v]);
    forall a: nat ensures Above(s'.scopes, a, u) == Above(s.scopes, a, u) {
      AboveSame(s.scopes, s'.scopes, a, u);
    }
  }

  lemma SameGrace(s: State, s': State, u: nat)
    requires After(s, s') && u < |s.scopes|
    ensures GraceFits(s'.scopes, u) == GraceFits(s.scopes, u)
  {
    SameAbove(s, s', u);
    assert forall v :: 0 <= v < |s.scopes| ==> ScopeAfter(s.scopes[v], s'.scopes[v]);
    forall a: nat | a < |s'.scopes| && Above(s.scopes, a, u) ensures a < |s.scopes| {
      F.AboveOlder(ParentsOf(s.scopes), a, u);
    }
  }

  /** A deadline taken now is no later than any ancestor's, and no earlier than any descendant's. */
  lemma TakeDeadline(s: State, s': State, x: nat)
    requires Deadlines(s) && After(s, s') && |s'.scopes| == |s.scopes| && x < |s.scopes|
    requires s.scopes[x].deadline.None? && s'.scopes[x].deadline == Some(NewDeadline(s, x))
    requires forall u :: 0 <= u < |s.scopes| && u != x ==> s'.scopes[u].deadline == s.scopes[u].deadline
    ensures Deadlines(s')
  {
    forall u | 0 <= u < |s'.scopes| && s'.scopes[u].deadline.Some? ensures DeadlineOk(s', u) {
      assert DeadlineOk(s, u) && ScopeAfter(s.scopes[u], s'.scopes[u]);
      SameAbove(s, s', u);
      SameGrace(s, s', u);
      forall a: nat | Above(s'.scopes, a, u) && GraceFits(s'.scopes, u) ensures Ordered(s'.scopes, a, u) {
        F.AboveOlder(ParentsOf(s.scopes), a, u);
        if u == x {
          if a != x { TakenBelow(s, x, a); }
        } else if a == x {
          TakenAbove(s, x, u);
        } else {
          assert Ordered(s.scopes, a, u);
        }
      }
    }
  }

  lemma TakenBelow(s: State, x: nat, a: nat)
    requires x < |s.scopes| && a < |s.scopes| && Above(s.scopes, a, x) && a != x
    ensures s.scopes[a].deadline.Some? ==> NewDeadline(s, x) <= s.scopes[a].deadline.value
  {
    if s.scopes[a].deadline.Some? { AncestorsBound(s.scopes, a, x); }
  }

  lemma TakenAbove(s: State, x: nat, u: nat)
    requires x < |s.scopes| && u < |s.scopes| && Above(s.scopes, x, u)
    requires DeadlineOk(s, u) && s.scopes[u].deadline.Some? && GraceFits(s.scopes, u)
    ensures s.scopes[u].deadline.value <= NewDeadline(s, x)
  {
    assert s.scopes[u].grace <= s.scopes[x].grace;
    if AncestorsDeadline(s.scopes, x).Some? {
      var b := AncestorsAttained(s.scopes, x);
      F.AboveTrans(ParentsOf(s.scopes), b, x, u);
      assert Ordered(s.scopes, b, u);
    }
  }

  lemma StepDeadlines(s: State, step: Step)
    requires Deadlines(s) && Enabled(s, step)
    ensures Deadlines(Apply(s, step))
  {
    hide Deadlines, NewDeadline, Unfinished, Above, After;
    StepAfter(s, step);
    var s' := Apply(s, step);
    if (step.Observe? || step.EndBody?) && s.scopes[step.scope].deadline.None? {
      TakeDeadline(s, s', step.scope);
    } else {
      SameDeadlines(s, s');
    }
  }

  lemma {:induction false} RunDeadlines(s: State, steps: seq<Step>, s': State)
    requires Deadlines(s) && RunsTo(s, steps, s')
    ensures Deadlines(s')
    decreases |steps|
  {
    hide Deadlines, Enabled, Apply;
    if steps != [] {
      StepDeadlines(s, steps[0]);
      RunDeadlines(Apply(s, steps[0]), steps[1..], s');
    }
  }

  /**
   One deadline for the tree: a scope's deadline is no later than that of
   every ancestor that has one, whichever of the two took it first, provided
   no ancestor has a shorter grace.
   */
  lemma OneDeadline(s: State, a: nat, u: nat)
    requires Reachable(s) && a < |s.scopes| && u < |s.scopes| && Above(s.scopes, a, u)
    requires GraceFits(s.scopes, u)
    ensures Ordered(s.scopes, a, u)
  {
    var steps :| RunsTo(Init(), steps, s);
    RunDeadlines(Init(), steps, s);
    assert DeadlineOk(s, u);
  }

  /** With one grace for the whole tree, as when the VM's grace is not changed. */
  lemma UniformGrace(s: State, g: nat, a: nat, u: nat)
    requires Reachable(s) && a < |s.scopes| && u < |s.scopes| && Above(s.scopes, a, u)
    requires forall v :: 0 <= v < |s.scopes| ==> s.scopes[v].grace == g
    ensures Ordered(s.scopes, a, u)
  {
    OneDeadline(s, a, u);
  }

  // ---- exactly when the deadlines are ordered -------------------------------------------

  /** In every run from `s`, `u` ends no later than its ancestors. */
  ghost predicate AlwaysOrdered(s: State, u: nat) {
    forall steps: seq<Step>, s': State, a: nat ::
      RunsTo(s, steps, s') && Above(s'.scopes, a, u) ==> Ordered(s'.scopes, a, u)
  }

  /**
   What `a` must offer its descendant `u` now.  With both deadlines taken:
   their order.  With one to come: a deadline that `u` takes is clamped, and
   one that `a` takes must not undercut the deadline of `u`.  With both to
   come: `a` has the longer grace, or `u` is already bound to end in time.
   */
  ghost predicate Fits(s: State, a: nat, u: nat)
    requires a < |s.scopes| && u < |s.scopes|
  {
    match (s.scopes[u].deadline, s.scopes[a].deadline)
    case (Some(d), Some(e)) => d <= e
    case (None, Some(_)) => true
    case (Some(d), None) => d <= NewDeadline(s, a)
    case (None, None) =>
      || s.scopes[u].grace <= s.scopes[a].grace
      || (var bound := AncestorsDeadline(s.scopes, u);
          bound.Some? && bound.value <= s.now + s.scopes[a].grace)
  }

  ghost predicate AllFit(s: State, u: nat)
    requires u < |s.scopes|
  {
    forall a: nat :: a < |s.scopes| && Above(s.scopes, a, u) && a != u ==> Fits(s, a, u)
  }

  lemma FitsOrdered(s: State, u: nat)
    requires u < |s.scopes| && AllFit(s, u)
    ensures forall a: nat :: Above(s.scopes, a, u) ==> Ordered(s.scopes, a, u)
  {
    forall a: nat | Above(s.scopes, a, u) ensures Ordered(s.scopes, a, u) {
      F.AboveOlder(ParentsOf(s.scopes), a, u);
      if a != u { assert Fits(s, a, u); }
    }
  }

  /** The ancestors' deadline depends on the ancestors' deadlines alone. */
  lemma {:induction false} SameAncestors(scopes: seq<Scope>, scopes': seq<Scope>, u: nat)
    requires u < |scopes| <= |scopes'|
    requires forall v :: 0 <= v < |scopes| ==>
      scopes'[v].parent == scopes[v].parent && scopes'[v].deadline == scopes[v].deadline
    ensures AncestorsDeadline(scopes', u) == AncestorsDeadline(scopes, u)
    decreases u
  {
    if scopes[u].parent.Some? && scopes[u].parent.value < u { SameAncestors(scopes, scopes', scopes[u].parent.value); }
  }

  /** A deadline taken by `x` bounds what is below `x`, and nothing else. */
  lemma {:induction false} TakenAncestors(scopes: seq<Scope>, scopes': seq<Scope>, x: nat, d: nat, u: nat)
    requires u < |scopes| == |scopes'| && x < |scopes|
    requires forall v :: 0 <= v < |scopes| ==> scopes'[v].parent == scopes[v].parent
    requires forall v :: 0 <= v < |scopes| && v != x ==> scopes'[v].deadline == scopes[v].deadline
    requires scopes[x].deadline.None? && scopes'[x].deadline == Some(d)
    ensures AncestorsDeadline(scopes', u) ==
      if Above(scopes, x, u) && x != u then Earlier(AncestorsDeadline(scopes, u), Some(d))
      else AncestorsDeadline(scopes, u)
    decreases u
  {
    if scopes[u].parent.Some? && scopes[u].parent.value < u {
      var p := scopes[u].parent.value;
      if Above(scopes, x, p) { F.AboveOlder(ParentsOf(scopes), x, p); }
      TakenAncestors(scopes, scopes', x, d, p);
    }
  }

  /** The ancestors of `a` bound everything below `a`. */
  lemma {:induction false} BoundBelow(scopes: seq<Scope>, a: nat, u: nat)
    requires u < |scopes| && Above(scopes, a, u) && AncestorsDeadline(scopes, a).Some?
    ensures AncestorsDeadline(scopes, u).Some?
    ensures AncestorsDeadline(scopes, u).value <= AncestorsDeadline(scopes, a).value
    decreases u
  {
    if a != u { BoundBelow(scopes, a, scopes[u].parent.value); }
  }

  /** Steps that take no deadline. */
  lemma FitsSame(s: State, s': State, a: nat, u: nat)
    requires After(s, s') && a < |s.scopes| && u < |s.scopes| && Fits(s, a, u)
    requires forall v :: 0 <= v < |s.scopes| ==> s'.scopes[v].deadline == s.scopes[v].deadline
    ensures Fits(s', a, u)
  {
    assert forall v :: 0 <= v < |s.scopes| ==> ScopeAfter(s.scopes[v], s'.scopes[v]);
    SameAncestors(s.scopes, s'.scopes, a);
    SameAncestors(s.scopes, s'.scopes, u);
  }

  /** `x` takes its deadline: the pair of `a` and `u` still fits. */
  lemma FitsTaken(s: State, s': State, x: nat, a: nat, u: nat)
    requires After(s, s') && |s'.scopes| == |s.scopes| && s'.now == s.now
    requires x < |s.scopes| && a < |s.scopes| && u < |s.scopes|
    requires s.scopes[x].deadline.None? && s'.scopes[x].deadline == Some(NewDeadline(s, x))
    requires forall v :: 0 <= v < |s.scopes| && v != x ==> s'.scopes[v].deadline == s.scopes[v].deadline
    requires AllFit(s, u) && Above(s.scopes, a, u) && a != u
    ensures Fits(s', a, u)
  {
    assert forall v :: 0 <= v < |s.scopes| ==> ScopeAfter(s.scopes[v], s'.scopes[v]);
    assert Fits(s, a, u);
    F.AboveOlder(ParentsOf(s.scopes), a, u);
    TakenAncestors(s.scopes, s'.scopes, x, NewDeadline(s, x), a);
    TakenAncestors(s.scopes, s'.scopes, x, NewDeadline(s, x), u);
    if Above(s.scopes, x, a) {
      F.AboveOlder(ParentsOf(s.scopes), x, a);
      F.AboveTrans(ParentsOf(s.scopes), x, a, u);
      assert Fits(s, x, u);
    }
    if AncestorsDeadline(s.scopes, a).Some? { BoundBelow(s.scopes, a, u); }
    if s.scopes[a].deadline.Some? { AncestorsBound(s.scopes, a, u); }
  }

  lemma StepFits(s: State, step: Step, u: nat)
    requires Enabled(s, step) && u < |s.scopes| && AllFit(s, u)
    ensures u < |Apply(s, step).scopes| && AllFit(Apply(s, step), u)
  {
    hide Fits, NewDeadline, AncestorsDeadline, Unfinished, F.Above, After;
    StepAfter(s, step);
    var s' := Apply(s, step);
    SameAbove(s, s', u);
    forall a: nat | a < |s'.scopes| && Above(s'.scopes, a, u) && a != u ensures Fits(s', a, u) {
      F.AboveOlder(ParentsOf(s.scopes), a, u);
      assert Fits(s, a, u);
      if (step.Observe? || step.EndBody?) && s.scopes[step.scope].deadline.None? {
        FitsTaken(s, s', step.scope, a, u);
      } else {
        FitsSame(s, s', a, u);
      }
    }
  }

  lemma {:induction false} RunFits(s: State, steps: seq<Step>, s': State, u: nat)
    requires RunsTo(s, steps, s') && u < |s.scopes| && AllFit(s, u)
    ensures u < |s'.scopes| && AllFit(s', u)
    decreases |steps|
  {
    hide AllFit, Enabled, Apply;
    if steps != [] {
      StepFits(s, steps[0], u);
      RunFits(Apply(s, steps[0]), steps[1..], s', u);
    }
  }

  lemma OneStep(s: State, x: Step)
    requires Enabled(s, x)
    ensures RunsTo(s, [x], Apply(s, x))
  {
    assert RunsTo(Apply(s, x), [], Apply(s, x));
    assert [x][1..] == [];
  }

  lemma TwoSteps(s: State, x: Step, y: Step)
    requires Enabled(s, x) && Enabled(Apply(s, x), y)
    ensures RunsTo(s, [x, y], Apply(Apply(s, x), y))
  {
    hide Apply, Enabled;
    OneStep(Apply(s, x), y);
    assert [x, y][1..] == [y];
  }

  lemma ThreeSteps(s: State, x: Step, y: Step, z: Step)
    requires Enabled(s, x) && Enabled(Apply(s, x), y) && Enabled(Apply(Apply(s, x), y), z)
    ensures RunsTo(s, [x, y, z], Apply(Apply(Apply(s, x), y), z))
  {
    hide Apply, Enabled;
    TwoSteps(Apply(s, x), y, z);
    assert [x, y, z][1..] == [y, z];
  }

  /** If the pair does not fit, ending the bodies that have no deadline yet, `u` first, breaks the order. */
  lemma Undercut(s: State, a: nat, u: nat) returns (steps: seq<Step>, s': State)
    requires Inv(s) && a < |s.scopes| && u < |s.scopes| && Above(s.scopes, a, u) && a != u && !Fits(s, a, u)
    ensures RunsTo(s, steps, s') && Above(s'.scopes, a, u) && !Ordered(s'.scopes, a, u)
  {
    F.AboveOlder(ParentsOf(s.scopes), a, u);
    assert ScopeOk(s, a) && ScopeOk(s, u);
    hide Inv, ScopeOk, After, Above, AncestorsDeadline;
    if s.scopes[a].deadline.Some? {
      return [], s;
    }
    if s.scopes[u].deadline.Some? {
      s' := Apply(s, EndBody(a));
      StepAfter(s, EndBody(a));
      SameAbove(s, s', u);
      OneStep(s, EndBody(a));
      return [EndBody(a)], s';
    }
    var s1 := Apply(s, EndBody(u));
    StepAfter(s, EndBody(u));
    SameAbove(s, s1, u);
    s' := Apply(s1, EndBody(a));
    StepAfter(s1, EndBody(a));
    SameAbove(s1, s', u);
    TwoSteps(s, EndBody(u), EndBody(a));
    return [EndBody(u), EndBody(a)], s';
  }

  /**
   In any reachable state, a scope ends no later than its ancestors in every
   further run if and only if it fits each of them now.
   */
  lemma OrderedExactly(s: State, u: nat)
    requires Reachable(s) && u < |s.scopes|
    ensures AlwaysOrdered(s, u) <==> AllFit(s, u)
  {
    if AllFit(s, u) {
      forall steps: seq<Step>, s': State, a: nat | RunsTo(s, steps, s') && Above(s'.scopes, a, u)
        ensures Ordered(s'.scopes, a, u)
      {
        RunFits(s, steps, s', u);
        FitsOrdered(s', u);
      }
    } else {
      ReachableInv(s);
      var a: nat :| a < |s.scopes| && Above(s.scopes, a, u) && a != u && !Fits(s, a, u);
      var steps, s' := Undercut(s, a, u);
      assert !Ordered(s'.scopes, a, u);
    }
  }

  /** `u` and its ancestors took no deadline yet. */
  ghost predicate Undecided(s: State, u: nat) {
    forall a: nat :: a < |s.scopes| && Above(s.scopes, a, u) ==> s.scopes[a].deadline.None?
  }

  lemma {:induction false} NoDeadlineAbove(scopes: seq<Scope>, u: nat)
    requires u < |scopes|
    requires forall a: nat :: a < |scopes| && Above(scopes, a, u) && a != u ==> scopes[a].deadline.None?
    ensures AncestorsDeadline(scopes, u).None?
    decreases u
  {
    if scopes[u].parent.Some? && scopes[u].parent.value < u {
      var p := scopes[u].parent.value;
      forall a: nat | a < |scopes| && Above(scopes, a, p) && a != p ensures scopes[a].deadline.None? {
        F.AboveOlder(ParentsOf(scopes), a, p);
        assert Above(scopes, a, u);
      }
      assert Above(scopes, p, u);
      NoDeadlineAbove(scopes, p);
    }
  }

  /** Before any of them took a deadline, the order holds exactly when no ancestor has a shorter grace. */
  lemma UndecidedExactly(s: State, u: nat)
    requires Reachable(s) && u < |s.scopes| && Undecided(s, u)
    ensures AlwaysOrdered(s, u) <==> GraceFits(s.scopes, u)
  {
    OrderedExactly(s, u);
    assert Above(s.scopes, u, u);
    NoDeadlineAbove(s.scopes, u);
    assert forall a: nat :: a < |s.scopes| && Above(s.scopes, a, u) && a != u ==>
      (Fits(s, a, u) <==> s.scopes[u].grace <= s.scopes[a].grace);
  }

  lemma SpawnedLonger() returns (s: State)
    ensures RunsTo(Init(), [NewRoot(1), Spawn(0, 2)], s)
    ensures s.scopes == [Scope(None, 1, Running, None, false, [1]), Scope(Some(0), 2, Running, None, false, [])]
    ensures s.now == 0
  {
    var s0 := Apply(Init(), NewRoot(1));
    assert s0.scopes == [Scope(None, 1, Running, None, false, [])];
    s := Apply(s0, Spawn(0, 2));
    assert Unfinished(s0, []) + [1] == [1];
    assert s.scopes[0] == Scope(None, 1, Running, None, false, [1]);
    assert s.scopes[1] == Scope(Some(0), 2, Running, None, false, []);
    assert |s.scopes| == 2;
    TwoSteps(Init(), NewRoot(1), Spawn(0, 2));
  }

  lemma ObservedFirst(s: State) returns (s': State)
    requires s.scopes == [Scope(None, 1, Running, None, false, [1]), Scope(Some(0), 2, Running, None, false, [])]
    requires s.now == 0
    ensures RunsTo(s, [Cancel(0), Observe(1), Observe(0)], s')
    ensures s'.scopes == [Scope(None, 1, Running, Some(1), true, [1]), Scope(Some(0), 2, Running, Some(2), true, [])]
  {
    var s1 := Apply(s, Cancel(0));
    assert Above(s.scopes, 0, 0) && Above(s.scopes, 0, 1);
    var s2 := Apply(s1, Observe(1));
    s' := Apply(s2, Observe(0));
    ThreeSteps(s, Cancel(0), Observe(1), Observe(0));
  }

  /**
   A run in which the order fails: a request with grace 1 spawns a task with
   grace 2, the request is cancelled, and the task sees the cancel first.
   */
  lemma LongerGraceFails() returns (s: State, s': State)
    ensures RunsTo(Init(), [NewRoot(1), Spawn(0, 2)], s)
    ensures |s.scopes| == 2 && Undecided(s, 1) && !GraceFits(s.scopes, 1) && !AlwaysOrdered(s, 1)
    ensures RunsTo(s, [Cancel(0), Observe(1), Observe(0)], s') && |s'.scopes| == 2
    ensures s'.scopes[1].parent == Some(0)
    ensures s'.scopes[0].deadline == Some(1) && s'.scopes[1].deadline == Some(2)
  {
    s := SpawnedLonger();
    s' := ObservedFirst(s);
    assert Above(s.scopes, 0, 1);
    assert Above(s'.scopes, 0, 1) && !Ordered(s'.scopes, 0, 1);
  }

  // ---- draining ------------------------------------------------------------------------

  /** A draining scope has its deadline, and every unfinished task below it is cancelled. */
  lemma DrainingCancelsAll(s: State, p: nat, u: nat)
    requires Reachable(s) && p < |s.scopes| && u < |s.scopes| && s.scopes[p].phase.Draining?
    requires Above(s.scopes, p, u) && p != u && !s.scopes[u].phase.Closed?
    ensures s.scopes[p].deadline.Some? && s.scopes[u].cancelled
  {
    ReachableInv(s);
    assert ScopeOk(s, p);
    CancelledBelow(s, p, u);
  }

  lemma {:induction false} CancelledBelow(s: State, p: nat, u: nat)
    requires Inv(s) && p < |s.scopes| && u < |s.scopes| && s.scopes[p].phase.Draining?
    requires Above(s.scopes, p, u) && p != u && !s.scopes[u].phase.Closed?
    ensures s.scopes[u].cancelled
    decreases u
  {
    assert ScopeOk(s, u);
    var q := s.scopes[u].parent.value;
    if q != p { CancelledBelow(s, p, q); }
  }

  /** `p` is closed, or draining with its deadline passed. */
  ghost predicate Spent(s: State, p: nat) {
    && p < |s.scopes| && !s.scopes[p].phase.Running?
    && (s.scopes[p].phase.Draining? ==> s.scopes[p].deadline.Some? && s.scopes[p].deadline.value <= s.now)
  }

  /** Once the deadline of a draining scope has passed, no task starts in it: its unfinished tasks only get fewer. */
  lemma {:induction false} NothingStartsLate(s: State, steps: seq<Step>, s': State, p: nat, c: nat)
    requires Spent(s, p) && RunsTo(s, steps, s')
    requires c < |s'.scopes| && s'.scopes[c].parent == Some(p) && !s'.scopes[c].phase.Closed?
    ensures c < |s.scopes| && s.scopes[c].parent == Some(p) && !s.scopes[c].phase.Closed?
    decreases |steps|
  {
    hide Enabled, Apply;
    if steps != [] {
      LateStep(s, steps[0], p);
      NothingStartsLate(Apply(s, steps[0]), steps[1..], s', p, c);
      LateChild(s, steps[0], p, c);
    }
  }

  lemma LateStep(s: State, step: Step, p: nat)
    requires Spent(s, p) && Enabled(s, step)
    ensures Spent(Apply(s, step), p)
  {
    StepAfter(s, step);
    assert ScopeAfter(s.scopes[p], Apply(s, step).scopes[p]);
  }

  lemma LateChild(s: State, step: Step, p: nat, c: nat)
    requires Spent(s, p) && Enabled(s, step)
    requires c < |Apply(s, step).scopes| && Apply(s, step).scopes[c].parent == Some(p)
    requires !Apply(s, step).scopes[c].phase.Closed?
    ensures c < |s.scopes| && s.scopes[c].parent == Some(p) && !s.scopes[c].phase.Closed?
  {
    StepAfter(s, step);
    if c < |s.scopes| { assert ScopeAfter(s.scopes[c], Apply(s, step).scopes[c]); }
  }

  /** A deadline, once taken, never changes. */
  lemma WrittenOnce(s: State, steps: seq<Step>, s': State, u: nat)
    requires Reachable(s) && RunsTo(s, steps, s') && u < |s.scopes| && s.scopes[u].deadline.Some?
    ensures u < |s'.scopes| && s'.scopes[u].deadline == s.scopes[u].deadline
  {
    ReachableInv(s);
    RunKeeps(s, steps, s');
    assert ScopeAfter(s.scopes[u], s'.scopes[u]);
  }
}
