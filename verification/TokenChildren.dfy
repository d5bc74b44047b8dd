/**
 The child list of a cancel token: weak entries, swept when the list has
 doubled since the last sweep.  The ghost counters add up what sweeping costs.
 */
module TokenChildren {
  import opened Basics

  /** What a weak entry points to; `alive` while some handle or descendant holds it. */
  class Inner {
    var alive: bool

    constructor ()
      ensures alive
    {
      alive := true;
    }

    /** The last strong reference is dropped. */
    method Die()
      modifies this
      ensures !alive
    {
      alive := false;
    }
  }

  /** The entries that are alive, in order. */
  ghost function LiveOnly(list: seq<Inner>): (r: seq<Inner>)
    reads list
    ensures |r| <= |list|
  {
    if list == [] then []
    else
      var last := list[|list| - 1];
      var front := LiveOnly(list[..|list| - 1]);
      if last.alive then front + [last] else front
  }

  /** Sweeping removes exactly the dead entries. */
  lemma {:induction false} LiveMembers(list: seq<Inner>, e: Inner)
    ensures e in LiveOnly(list) <==> e in list && e.alive
  {
    if list != [] {
      var front, last := list[..|list| - 1], list[|list| - 1];
      assert e in list <==> e in front || e == last;
      LiveMembers(front, e);
    }
  }

  class Children {
    var list: seq<Inner>
    var sweepAt: nat

    /** Calls of `Add`, entries looked at by sweeps, and entries the last sweep found alive. */
    ghost var calls: nat
    ghost var scanned: nat
    ghost var lastLive: nat
    /** Entries in the list that the last sweep left there. */
    ghost var kept: nat

    /**
     The list holds at most max(16, twice what the last sweep found alive),
     and sweeping cost at most two entries for each call, less two for
     every entry added since.
     */
    ghost predicate Valid()
      reads this
    {
      && kept <= |list| && kept <= lastLive
      && (sweepAt == 0 || sweepAt == Max(2 * lastLive, 16))
      && (sweepAt == 0 ==> list == [] && lastLive == 0)
      && |list| <= Max(2 * lastLive, 16)
      && scanned + 2 * (|list| - kept) <= 2 * calls
    }

    constructor ()
      ensures Valid() && list == [] && calls == 0 && scanned == 0
    {
      list, sweepAt := [], 0;
      calls, scanned, lastLive, kept := 0, 0, 0, 0;
    }

    /** Keep the live entries (`retain`). */
    method Sweep()
      modifies this`list
      ensures list == LiveOnly(old(list))
    {
      var before, k := list, 0;
      var live: seq<Inner> := [];
      while k < |before|
        invariant k <= |before| && live == LiveOnly(before[..k])
        modifies {}
      {
        assert before[..k + 1][..k] == before[..k];
        if before[k].alive { live := live + [before[k]]; }
        k := k + 1;
      }
      assert before[..k] == before;
      list := live;
    }

    /** Add a child, sweeping first when the list has reached its threshold. */
    method Add(child: Inner)
      requires Valid()
      modifies this
      ensures Valid() && calls == old(calls) + 1
      ensures list == (if old(|list| >= sweepAt) then LiveOnly(old(list)) else old(list)) + [child]
      ensures scanned == old(scanned) + if old(|list| >= sweepAt) then old(|list|) else 0
      ensures forall e :: e in old(list) && e.alive ==> e in list
      ensures |list| <= Max(2 * lastLive, 16) && scanned <= 2 * calls
    {
      if |list| >= sweepAt {
        scanned := scanned + |list|;
        Sweep();
        sweepAt := Max(2 * |list|, 16);
        lastLive, kept := |list|, |list|;
      }
      forall e | e in old(list) && e.alive ensures e in list { LiveMembers(old(list), e); }
      list := list + [child];
      calls := calls + 1;
    }

    /** Take the whole list, as a cancel does. */
    method TakeAll() returns (taken: seq<Inner>)
      requires Valid()
      modifies this`list, this`kept
      ensures Valid() && taken == old(list) && list == []
    {
      taken := list;
      list, kept := [], 0;
    }
  }
}
