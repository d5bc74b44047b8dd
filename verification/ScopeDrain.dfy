/** A drain never waits for something that cannot end. */
module ScopeDrain {
  import opened Scopes

  /** Every scope from `n` on is closed. */
  ghost predicate ClosedFrom(s: State, n: nat) {
    forall v: nat :: n <= v < |s.scopes| ==> s.scopes[v].phase.Closed?
  }

  /** The youngest scope that is not closed has nothing left to wait for once its body ended. */
  lemma YoungestCloses(s: State, u: nat)
    requires Inv(s) && u < |s.scopes| && s.scopes[u].phase.Draining? && ClosedFrom(s, u + 1)
    ensures Enabled(s, Close(u)) && Inv(Apply(s, Close(u)))
    ensures ClosedFrom(Apply(s, Close(u)), u) && |Apply(s, Close(u)).scopes| == |s.scopes|
  {
    assert ScopeOk(s, u);
    forall c | c in s.scopes[u].children ensures Done(s, c) { assert ScopeOk(s, c); }
    StepInv(s, Close(u));
  }

  lemma YoungestDrains(s: State, u: nat)
    requires Inv(s) && u < |s.scopes| && s.scopes[u].phase.Running? && ClosedFrom(s, u + 1)
    ensures Enabled(s, EndBody(u)) && Inv(Apply(s, EndBody(u)))
    ensures var s' := Apply(s, EndBody(u));
      ClosedFrom(s', u + 1) && |s'.scopes| == |s.scopes| && s'.scopes[u].phase.Draining?
  {
    StepInv(s, EndBody(u));
  }

  lemma RunsCons(s: State, step: Step, rest: seq<Step>, s': State)
    requires Enabled(s, step) && RunsTo(Apply(s, step), rest, s')
    ensures RunsTo(s, [step] + rest, s')
  {
    assert ([step] + rest)[1..] == rest;
  }

  /**
   From every state, whatever was spawned where, the scopes from `p` on can all
   be closed: end the youngest body, close its scope, and go on with the next.
   */
  lemma {:induction false} CanCloseFrom(s: State, p: nat, n: nat) returns (steps: seq<Step>, s': State)
    requires Inv(s) && p <= n <= |s.scopes| && ClosedFrom(s, n)
    ensures RunsTo(s, steps, s') && |s'.scopes| == |s.scopes| && ClosedFrom(s', p)
    ensures forall k :: 0 <= k < |steps| ==> steps[k].EndBody? || steps[k].Close?
    decreases n - p, if n > 0 && n <= |s.scopes| then 2 - Rank(s.scopes[n - 1].phase) else 0
  {
    hide Inv, Apply, Enabled;
    if n == p {
      return [], s;
    }
    var u := n - 1;
    if s.scopes[u].phase.Closed? {
      steps, s' := CanCloseFrom(s, p, u);
    } else if s.scopes[u].phase.Draining? {
      YoungestCloses(s, u);
      var rest: seq<Step>;
      rest, s' := CanCloseFrom(Apply(s, Close(u)), p, u);
      steps := [Close(u)] + rest;
      RunsCons(s, Close(u), rest, s');
    } else {
      YoungestDrains(s, u);
      var rest: seq<Step>;
      rest, s' := CanCloseFrom(Apply(s, EndBody(u)), p, n);
      steps := [EndBody(u)] + rest;
      RunsCons(s, EndBody(u), rest, s');
    }
  }

  /**
   No drain is stuck: in every reachable state, ending bodies and closing
   scopes (what the deadlines bring about) closes any given scope.
   */
  lemma DrainCanFinish(s: State, p: nat) returns (steps: seq<Step>, s': State)
    requires Reachable(s) && p < |s.scopes|
    ensures RunsTo(s, steps, s') && p < |s'.scopes| && s'.scopes[p].phase.Closed?
    ensures forall k :: 0 <= k < |steps| ==> steps[k].EndBody? || steps[k].Close?
  {
    ReachableInv(s);
    steps, s' := CanCloseFrom(s, p, |s.scopes|);
  }
}
