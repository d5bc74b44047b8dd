/**
 Cancel tokens as one thread runs them: a flag and a list of children that
 `cancel` walks recursively.  `parents` gives the parent of each token, by
 identifier.
 */
module CancelTokens {
  import opened Basics
  import opened Forest

  class CancelToken {
    ghost const id: nat
    var flag: bool
    var children: seq<CancelToken>

    constructor (ghost id: nat)
      ensures this.id == id && !flag && children == []
    {
      this.id, flag, children := id, false, [];
    }

    /** A new child token: cancelled at once if this one is, listed here otherwise (`child_token`). */
    method ChildToken(ghost tokens: seq<CancelToken>, ghost parents: Parents)
      returns (child: CancelToken)
      requires Wired(tokens, parents) && id < |tokens| && tokens[id] == this
      modifies this`children
      ensures fresh(child) && child.id == |tokens| && child.flag == flag
      ensures Wired(tokens + [child], parents + [Some(id)])
    {
      child := new CancelToken(|tokens|);
      if flag {
        child.flag := true;
      } else {
        children := children + [child];
      }
    }

    /** Set the flag and cancel every child; nothing to do if it is set already. */
    method Cancel(ghost tokens: seq<CancelToken>, ghost parents: Parents)
      requires Wired(tokens, parents) && id < |tokens| && tokens[id] == this
      requires FlagsBelow(tokens, parents, id)
      modifies tokens
      ensures Wired(tokens, parents)
      ensures forall u: nat :: u < |tokens| ==> tokens[u].flag == (old(tokens[u].flag) || Above(parents, id, u))
      decreases |tokens| - id, 1
    {
      if flag {
        AllFlagged(tokens, parents, id);
        return;
      }
      ghost var before := Flags(tokens);
      ChildrenOf(tokens, parents, id);
      flag := true;
      var list := children;
      children := [];
      CancelEach(list, tokens, parents, before);
      BranchesAll(parents, id, list, tokens);
    }

    /** Cancel the tokens of `list`, the children of this one, in order. */
    method CancelEach(list: seq<CancelToken>, ghost tokens: seq<CancelToken>, ghost parents: Parents,
                      ghost before: seq<bool>)
      requires Wired(tokens, parents) && id < |tokens| && tokens[id] == this && |before| == |tokens|
      requires ChildrenOnly(list, tokens, parents, id)
      requires FlagsWereBelow(before, parents, id)
      requires forall u: nat :: u < |tokens| ==> tokens[u].flag == (before[u] || u == id)
      modifies tokens
      ensures Wired(tokens, parents)
      ensures forall u: nat :: u < |tokens| ==>
        tokens[u].flag == (before[u] || u == id || BelowSome(parents, list, |list|, u))
      decreases |tokens| - id, 0
    {
      hide Wired;
      Sizes(tokens, parents);
      var k := 0;
      while k < |list|
        invariant k <= |list| && Wired(tokens, parents)
        invariant forall u: nat :: u < |tokens| ==>
          tokens[u].flag == (before[u] || u == id || BelowSome(parents, list, k, u))
      {
        assert list[k] in list;
        BelowSibling(tokens, parents, id, list, k, before);
        ghost var current := Flags(tokens);
        list[k].Cancel(tokens, parents);
        forall u: nat | u < |tokens|
          ensures tokens[u].flag == (before[u] || u == id || BelowSome(parents, list, k + 1, u))
        {
          OneMore(parents, list, k, u);
          assert tokens[u].flag == (current[u] || Above(parents, list[k].id, u));
        }
        k := k + 1;
      }
    }
  }

  /** `u` is below one of the first `k` tokens of `list`. */
  ghost predicate BelowSome(parents: Parents, list: seq<CancelToken>, k: nat, u: nat)
    requires k <= |list|
  {
    exists j: nat :: j < k && Above(parents, list[j].id, u)
  }

  lemma OneMore(parents: Parents, list: seq<CancelToken>, k: nat, u: nat)
    requires k < |list|
    ensures BelowSome(parents, list, k + 1, u) == (BelowSome(parents, list, k, u) || Above(parents, list[k].id, u))
  {
  }

  /** The tokens of `list` are children of `id`. */
  ghost predicate ChildrenOnly(list: seq<CancelToken>, tokens: seq<CancelToken>, parents: Parents, id: nat) {
    && |tokens| == |parents|
    && forall c :: c in list ==> c.id < |tokens| && tokens[c.id] == c && parents[c.id] == Some(id) && id < c.id
  }

  lemma Sizes(tokens: seq<CancelToken>, parents: Parents)
    requires Wired(tokens, parents)
    ensures |tokens| == |parents| && forall i :: 0 <= i < |tokens| ==> tokens[i].id == i
  {
  }

  lemma ChildrenOf(tokens: seq<CancelToken>, parents: Parents, id: nat)
    requires Wired(tokens, parents) && id < |tokens|
    ensures ChildrenOnly(tokens[id].children, tokens, parents, id)
    ensures !tokens[id].flag ==> AllChildren(tokens[id].children, tokens, parents, id)
  {
    assert tokens[id].id == id;
  }

  /** `list` has every child of `id`. */
  ghost predicate AllChildren(list: seq<CancelToken>, tokens: seq<CancelToken>, parents: Parents, id: nat)
    requires |tokens| == |parents|
  {
    forall c {:trigger parents[c]} :: 0 <= c < |parents| && parents[c] == Some(id) && id < c ==> tokens[c] in list
  }

  ghost function Flags(tokens: seq<CancelToken>): (r: seq<bool>)
    reads tokens
    ensures |r| == |tokens| && forall u :: 0 <= u < |r| ==> r[u] == tokens[u].flag
  {
    seq(|tokens|, u requires 0 <= u < |tokens| reads tokens => tokens[u].flag)
  }

  /** A token lists children only, and all of them while it is not cancelled. */
  ghost predicate Wired(tokens: seq<CancelToken>, parents: Parents)
    reads tokens
  {
    && |tokens| == |parents|
    && (forall i {:trigger tokens[i]} :: 0 <= i < |tokens| ==>
          && tokens[i].id == i
          && forall c :: c in tokens[i].children ==>
               c.id < |tokens| && tokens[c.id] == c && parents[c.id] == Some(i as nat) && i < c.id)
    && (forall c {:trigger parents[c]} :: 0 <= c < |parents| && parents[c].Some? && parents[c].value < c ==>
          tokens[parents[c].value].flag || tokens[c] in tokens[parents[c].value].children)
  }

  /** Below `id`, a cancelled token has its children cancelled. */
  ghost predicate FlagsBelow(tokens: seq<CancelToken>, parents: Parents, id: nat)
    requires |tokens| == |parents|
    reads tokens
  {
    forall u: nat {:trigger Above(parents, id, u)} :: u < |parents| && Above(parents, id, u) && u != id ==>
      (tokens[parents[u].value].flag ==> tokens[u].flag)
  }

  lemma {:induction false} AllFlaggedTo(tokens: seq<CancelToken>, parents: Parents, id: nat, u: nat)
    requires |tokens| == |parents| && FlagsBelow(tokens, parents, id) && id < |tokens| && tokens[id].flag
    requires u < |parents| && Above(parents, id, u)
    ensures tokens[u].flag
    decreases u
  {
    if u != id { AllFlaggedTo(tokens, parents, id, parents[u].value); }
  }

  lemma AllFlagged(tokens: seq<CancelToken>, parents: Parents, id: nat)
    requires |tokens| == |parents| && FlagsBelow(tokens, parents, id) && id < |tokens| && tokens[id].flag
    ensures forall u: nat :: u < |tokens| && Above(parents, id, u) ==> tokens[u].flag
  {
    forall u: nat | u < |tokens| && Above(parents, id, u) ensures tokens[u].flag {
      AllFlaggedTo(tokens, parents, id, u);
    }
  }

  /** `list` has every child of `id`, so it covers all that is below `id`. */
  lemma Branches(parents: Parents, id: nat, u: nat, list: seq<CancelToken>, tokens: seq<CancelToken>)
    requires ChildrenOnly(list, tokens, parents, id) && AllChildren(list, tokens, parents, id) && id < |parents|
    requires forall c :: 0 <= c < |tokens| ==> tokens[c].id == c
    ensures Above(parents, id, u) == (u == id || BelowSome(parents, list, |list|, u))
  {
    if Above(parents, id, u) && u != id {
      var c := ChildOnPath(parents, id, u);
      var j :| 0 <= j < |list| && list[j] == tokens[c];
    }
    if j: nat :| j < |list| && Above(parents, list[j].id, u) {
      assert list[j] in list;
      assert Above(parents, id, list[j].id);
      AboveTrans(parents, id, list[j].id, u);
    }
  }

  lemma BranchesAll(parents: Parents, id: nat, list: seq<CancelToken>, tokens: seq<CancelToken>)
    requires ChildrenOnly(list, tokens, parents, id) && AllChildren(list, tokens, parents, id) && id < |parents|
    requires forall c :: 0 <= c < |tokens| ==> tokens[c].id == c
    ensures forall u: nat :: u < |tokens| ==> Above(parents, id, u) == (u == id || BelowSome(parents, list, |list|, u))
  {
    forall u: nat | u < |tokens| ensures Above(parents, id, u) == (u == id || BelowSome(parents, list, |list|, u)) {
      Branches(parents, id, u, list, tokens);
    }
  }

  /** As `FlagsBelow`, for flags read earlier. */
  ghost predicate FlagsWereBelow(before: seq<bool>, parents: Parents, id: nat)
    requires |before| == |parents|
  {
    forall u: nat {:trigger Above(parents, id, u)} :: u < |parents| && Above(parents, id, u) && u != id ==>
      (before[parents[u].value] ==> before[u])
  }

  /** While the children are visited, the flags below the next one are still in order. */
  lemma BelowSibling(tokens: seq<CancelToken>, parents: Parents, id: nat, list: seq<CancelToken>, k: nat,
                     before: seq<bool>)
    requires |before| == |parents| && id < |parents| && k < |list|
    requires ChildrenOnly(list, tokens, parents, id) && FlagsWereBelow(before, parents, id)
    requires forall u: nat :: u < |tokens| ==>
      tokens[u].flag == (before[u] || u == id || BelowSome(parents, list, k, u))
    ensures FlagsBelow(tokens, parents, list[k].id)
  {
    var c := list[k].id;
    assert list[k] in list && Above(parents, id, c);
    forall u: nat | u < |parents| && Above(parents, c, u) && u != c && tokens[parents[u].value].flag
      ensures tokens[u].flag
    {
      var q := parents[u].value;
      AboveTrans(parents, id, c, u);
      AboveOlder(parents, c, q);
      if before[q] {
        assert before[u];
      } else {
        var j: nat :| j < k && Above(parents, list[j].id, q);
        assert Above(parents, list[j].id, u);
      }
    }
  }

  /** A cancelled token has its children cancelled. */
  ghost predicate FlagsClosed(tokens: seq<CancelToken>, parents: Parents)
    reads tokens
  {
    && |tokens| == |parents|
    && forall u {:trigger parents[u]} :: 0 <= u < |parents| && parents[u].Some? && parents[u].value < u ==>
         (tokens[parents[u].value].flag ==> tokens[u].flag)
  }

  /** As `FlagsClosed`, for flags read earlier. */
  ghost predicate WereClosed(before: seq<bool>, parents: Parents) {
    && |before| == |parents|
    && forall u {:trigger parents[u]} :: 0 <= u < |parents| && parents[u].Some? && parents[u].value < u ==>
         (before[parents[u].value] ==> before[u])
  }

  lemma ReadClosed(tokens: seq<CancelToken>, parents: Parents)
    requires FlagsClosed(tokens, parents)
    ensures WereClosed(Flags(tokens), parents)
  {
  }

  lemma ClosedBelow(tokens: seq<CancelToken>, parents: Parents, id: nat)
    requires FlagsClosed(tokens, parents)
    ensures FlagsBelow(tokens, parents, id)
  {
  }

  /** Cancelling everything below `id` keeps the flags in order. */
  lemma StillClosed(tokens: seq<CancelToken>, parents: Parents, before: seq<bool>, id: nat)
    requires |tokens| == |parents| && WereClosed(before, parents)
    requires forall u: nat :: u < |tokens| ==> tokens[u].flag == (before[u] || Above(parents, id, u))
    ensures FlagsClosed(tokens, parents)
  {
  }
}
