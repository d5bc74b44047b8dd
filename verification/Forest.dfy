/** Trees given by the parent of each node; a parent is older than its children. */
module Forest {
  import opened Basics

  type Parents = seq<Option<nat>>

  /** `a` is `u` or an ancestor of it. */
  predicate Above(parents: Parents, a: nat, u: nat)
    decreases u
  {
    a == u ||
    (u < |parents| && parents[u].Some? && parents[u].value < u && Above(parents, a, parents[u].value))
  }

  lemma {:induction false} AboveTrans(parents: Parents, a: nat, b: nat, u: nat)
    requires Above(parents, a, b) && Above(parents, b, u)
    ensures Above(parents, a, u)
    decreases u
  {
    if b != u { AboveTrans(parents, a, b, parents[u].value); }
  }

  lemma {:induction false} AboveOlder(parents: Parents, a: nat, u: nat)
    requires Above(parents, a, u)
    ensures a <= u
    decreases u
  {
    if a != u { AboveOlder(parents, a, parents[u].value); }
  }

  /** Whatever is below `a` is below one of its children. */
  lemma {:induction false} ChildOnPath(parents: Parents, a: nat, u: nat) returns (c: nat)
    requires Above(parents, a, u) && a != u
    ensures c < |parents| && parents[c] == Some(a) && a < c && Above(parents, c, u)
    decreases u
  {
    var p := parents[u].value;
    if p == a { c := u; } else { c := ChildOnPath(parents, a, p); }
  }
}
