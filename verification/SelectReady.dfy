/**
 Which case a wait resolves with: in the order in which its poll visits the
 cases, the first that can go, with what is there for it.
 */
module SelectReady {
  import opened Basics
  import opened ChanSpec
  import opened ChanInv
  import opened SelectSpec
  import opened SelectInv
  import opened SelectPoll
  import opened SelectTheorems
  import opened SelectReturns

  /** The case can go now. */
  ghost predicate CanGo(h: Heap, arm: Arm, mark: Option<nat>)
    requires ArmRefs(h, arm)
  {
    match arm
    case Recv(c, _) =>
      var core := h.chans[c];
      || core.buf != [] || core.closed
      || (core.cap == 0 && (SlotOf(h, arm).Some? || exists o :: o in core.offers && Eligible(h, o, mark)))
    case Send(c, _, o, eager) =>
      var core := h.chans[c];
      if core.cap > 0 then core.closed || |core.buf| < core.cap
      else if o.Some? then h.offers[o.value].state != Open
      else core.closed || (eager && exists w :: w in core.waiters && Fillable(h, w, mark))
    case Other(ready) => ready
  }

  /** The value is the one that has waited longest: of a filled slot, the buffer, or the offers, in this order. */
  ghost predicate Longest(h: Heap, arm: Arm, mark: Option<nat>, item: Item)
    requires ArmRefs(h, arm) && arm.Recv?
  {
    var core := h.chans[arm.chan];
    if core.cap == 0 && SlotOf(h, arm).Some? then item == SlotOf(h, arm).value
    else if core.buf != [] then item == core.buf[0]
    else core.cap == 0 && exists k: nat :: FirstOffer(h, core.offers, k, mark) && item == h.offers[core.offers[k]].item
  }

  ghost predicate FirstOffer(h: Heap, ids: seq<nat>, k: nat, mark: Option<nat>) {
    k < |ids| && Eligible(h, ids[k], mark) && forall j :: 0 <= j < k ==> !Eligible(h, ids[j], mark)
  }

  /** What a case that can go reports. */
  ghost predicate Tells(h: Heap, arm: Arm, mark: Option<nat>, out: Out)
    requires ArmRefs(h, arm)
  {
    match arm
    case Recv(c, _) =>
      || (out.Received? && Longest(h, arm, mark, out.item))
      || (out.RecvClosed? && h.chans[c].closed && h.chans[c].buf == []
          && (h.chans[c].cap == 0 ==>
                SlotOf(h, arm).None? && forall o :: o in h.chans[c].offers ==> !Eligible(h, o, mark)))
    case Send(c, _, o, eager) =>
      var core := h.chans[c];
      if core.cap == 0 && o.Some? then
        out == if h.offers[o.value].state == Taken then Sent else SendClosed
      else out == if core.closed then SendClosed else Sent
    case Other(_) => out.Fired?
  }

  lemma RendezvousReady(h: Heap, arm: Arm, me: Owner, mark: Option<nat>, w: Waker)
    requires arm.Recv? && ArmRefs(h, arm) && h.chans[arm.chan].cap == 0
    ensures var s := PollRendezvous(h, arm, me, mark, w);
      && (!s.out.Pending? <==> CanGo(h, arm, mark))
      && (!s.out.Pending? ==> Tells(h, arm, mark, s.out))
  {
    hide Forget, TakeOffer, PopFront, PostWaiter, TakeSlot, Eligible;
    var core := h.chans[arm.chan];
    var k := FindOffer(h, core.offers, mark);
    if k.Some? { assert FirstOffer(h, core.offers, k.value, mark) && core.offers[k.value] in core.offers; }
  }

  lemma SendReady(h: Heap, arm: Arm, me: Owner, mark: Option<nat>, w: Waker)
    requires arm.Send? && ArmRefs(h, arm)
    ensures var s := PollSend(h, arm, me, mark, w);
      && (!s.out.Pending? <==> CanGo(h, arm, mark))
      && (!s.out.Pending? ==> Tells(h, arm, mark, s.out))
  {
    hide PostOffer, Fill, PushBack, Fillable;
    var core := h.chans[arm.chan];
    var k := FindWaiter(h, core.waiters, mark);
    if k.Some? { assert core.waiters[k.value] in core.waiters; }
  }

  /** A poll of one case is ready if and only if the case can go. */
  lemma PollsReady(h: Heap, arm: Arm, me: Owner, mark: Option<nat>, w: Waker)
    requires ArmRefs(h, arm)
    ensures var s := PollArm(h, arm, me, mark, w);
      && (!s.out.Pending? <==> CanGo(h, arm, mark))
      && (!s.out.Pending? ==> Tells(h, arm, mark, s.out))
  {
    hide PollRendezvous, PollSend, PopFront;
    match arm
    case Recv(c, _) => if h.chans[c].cap == 0 { RendezvousReady(h, arm, me, mark, w); }
    case Send(_, _, _, _) => SendReady(h, arm, me, mark, w);
    case Other(_) =>
  }

  // ---- a pending case leaves the others as they are ---------------------------------------

  /** The queue got at most entries of the select `mark`, at its end. */
  ghost predicate OwnAdded(q: seq<nat>, q': seq<nat>, n: nat) {
    q <= q' && forall k :: |q| <= k < |q'| ==> q'[k] >= n
  }

  /** Wakers changed, and offers and waiters of the select `mark` were added; nothing else did. */
  ghost predicate OnlyOwn(h: Heap, h1: Heap, mark: Option<nat>) {
    && SameQueues(h, h1) && h1.marks == h.marks
    && |h.offers| <= |h1.offers| && |h.waiters| <= |h1.waiters|
    && (forall c {:trigger h1.chans[c]} :: 0 <= c < |h.chans| ==>
          && OwnAdded(h.chans[c].offers, h1.chans[c].offers, |h.offers|)
          && OwnAdded(h.chans[c].waiters, h1.chans[c].waiters, |h.waiters|))
    && (forall o {:trigger h1.offers[o]} :: 0 <= o < |h1.offers| ==>
          if o < |h.offers| then h1.offers[o] == h.offers[o].(waker := h1.offers[o].waker)
          else SameSelect(h1.offers[o].select, mark))
    && (forall w {:trigger h1.waiters[w]} :: 0 <= w < |h1.waiters| ==>
          if w < |h.waiters| then h1.waiters[w] == h.waiters[w].(waker := h1.waiters[w].waker)
          else SameSelect(h1.waiters[w].select, mark))
  }

  lemma PendingOwn(h: Heap, arm: Arm, me: Owner, mark: Option<nat>, w: Waker)
    requires ArmRefs(h, arm) && mark.Some? && PollArm(h, arm, me, mark, w).out.Pending?
    ensures var s := PollArm(h, arm, me, mark, w); OnlyOwn(h, s.h, mark)
  {
    hide PollRendezvous, PollSend, PopFront;
    match arm
    case Recv(c, _) => if h.chans[c].cap == 0 { RendezvousOwn(h, arm, me, mark, w); }
    case Send(_, _, _, _) => SendOwn(h, arm, me, mark, w);
    case Other(_) =>
  }

  lemma RendezvousOwn(h: Heap, arm: Arm, me: Owner, mark: Option<nat>, w: Waker)
    requires arm.Recv? && ArmRefs(h, arm) && mark.Some?
    requires PollRendezvous(h, arm, me, mark, w).out.Pending?
    ensures var s := PollRendezvous(h, arm, me, mark, w); OnlyOwn(h, s.h, mark)
  {
    hide Forget, TakeOffer, PopFront, FindOffer;
  }

  lemma SendOwn(h: Heap, arm: Arm, me: Owner, mark: Option<nat>, w: Waker)
    requires arm.Send? && ArmRefs(h, arm) && mark.Some?
    requires PollSend(h, arm, me, mark, w).out.Pending?
    ensures var s := PollSend(h, arm, me, mark, w); OnlyOwn(h, s.h, mark)
  {
    hide PushBack, Fill, FindWaiter, PostOffer;
    if h.chans[arm.chan].cap == 0 { PostOfferOwn(h, arm.chan, arm.item, me, mark, w); }
  }

  lemma PostOfferOwn(h: Heap, c: nat, item: Item, own: Owner, mark: Option<nat>, w: Waker)
    requires c < |h.chans| && mark.Some?
    ensures var h1 := PostOffer(h, c, item, own, mark, w); OnlyOwn(h, h1, mark)
  {
    hide TasksOf, WaiterWakers;
  }

  lemma OwnPairs(h: Heap, h1: Heap, mark: Option<nat>)
    requires mark.Some? && OnlyOwn(h, h1, mark)
    ensures forall o: nat :: Eligible(h1, o, mark) <==> Eligible(h, o, mark)
    ensures forall w: nat :: Fillable(h1, w, mark) <==> Fillable(h, w, mark)
  {
  }

  lemma OwnQueues(h: Heap, h1: Heap, mark: Option<nat>, c: nat)
    requires OnlyOwn(h, h1, mark) && c < |h.chans|
    ensures forall o :: o in h.chans[c].offers ==> o in h1.chans[c].offers
    ensures forall o :: o in h1.chans[c].offers ==> o in h.chans[c].offers || o >= |h.offers|
    ensures forall w :: w in h.chans[c].waiters ==> w in h1.chans[c].waiters
    ensures forall w :: w in h1.chans[c].waiters ==> w in h.chans[c].waiters || w >= |h.waiters|
  {
    var a, b := h.chans[c], h1.chans[c];
    assert OwnAdded(a.offers, b.offers, |h.offers|) && OwnAdded(a.waiters, b.waiters, |h.waiters|);
    Members(a.offers, b.offers, |h.offers|);
    Members(a.waiters, b.waiters, |h.waiters|);
  }

  lemma Members(q: seq<nat>, q': seq<nat>, n: nat)
    requires OwnAdded(q, q', n)
    ensures forall x :: x in q ==> x in q'
    ensures forall x :: x in q' ==> x in q || x >= n
  {
    forall x | x in q ensures x in q' {
      var k :| 0 <= k < |q| && q[k] == x;
      assert q'[k] == x;
    }
    forall x | x in q' && x < n ensures x in q {
      var k :| 0 <= k < |q'| && q'[k] == x;
      assert k < |q| && q[k] == x;
    }
  }

  /** Such a change lets no case of that select go, and stops none. */
  lemma OwnKeeps(h: Heap, h1: Heap, arm: Arm, mark: Option<nat>)
    requires ArmRefs(h, arm) && mark.Some? && OnlyOwn(h, h1, mark)
    ensures ArmRefs(h1, arm) && (CanGo(h1, arm, mark) <==> CanGo(h, arm, mark))
  {
    OwnPairs(h, h1, mark);
    if !arm.Other? { OwnQueues(h, h1, mark, arm.chan); }
    hide Fillable, OwnAdded;
    assert forall o: nat :: Eligible(h1, o, mark) ==> o < |h.offers|;
    hide Eligible;
  }

  lemma OwnTells(h: Heap, h1: Heap, arm: Arm, mark: Option<nat>, out: Out)
    requires ArmRefs(h, arm) && ArmRefs(h1, arm) && mark.Some? && OnlyOwn(h, h1, mark)
    requires Tells(h1, arm, mark, out)
    ensures Tells(h, arm, mark, out)
  {
    OwnPairs(h, h1, mark);
    if !arm.Other? { OwnQueues(h, h1, mark, arm.chan); }
    if arm.Recv? && out.Received? { OwnLongest(h, h1, arm, mark, out.item); }
    hide Fillable, Eligible, OwnAdded;
  }

  lemma OwnLongest(h: Heap, h1: Heap, arm: Arm, mark: Option<nat>, item: Item)
    requires ArmRefs(h, arm) && ArmRefs(h1, arm) && arm.Recv? && mark.Some? && OnlyOwn(h, h1, mark)
    requires Longest(h1, arm, mark, item)
    ensures Longest(h, arm, mark, item)
  {
    OwnPairs(h, h1, mark);
    var ids, ids1 := h.chans[arm.chan].offers, h1.chans[arm.chan].offers;
    assert OwnAdded(ids, ids1, |h.offers|);
    if k: nat :| FirstOffer(h1, ids1, k, mark) && item == h1.offers[ids1[k]].item {
      assert ids1[k] < |h.offers|;
      assert k < |ids| && ids[k] == ids1[k];
      assert forall j :: 0 <= j < k ==> ids[j] == ids1[j];
      assert FirstOffer(h, ids, k, mark);
    }
  }

  // ---- one poll of a wait ------------------------------------------------------------------

  ghost predicate TurnGoes(h: Heap, wait: Wait, j: nat)
    requires j < |wait.arms| && AllRefs(h, wait.arms)
  {
    CanGo(h, wait.arms[Turn(wait.start, j, |wait.arms|)], wait.mark)
  }

  ghost predicate AllRefs(h: Heap, arms: seq<Arm>) {
    forall i {:trigger arms[i]} :: 0 <= i < |arms| ==> ArmRefs(h, arms[i])
  }

  /** The turn `j` is the first from `k` on at which a case can go. */
  ghost predicate FirstTurn(h: Heap, wait: Wait, k: nat, j: nat)
    requires AllRefs(h, wait.arms)
  {
    && k <= j < |wait.arms| && TurnGoes(h, wait, j)
    && forall x :: k <= x < j ==> !TurnGoes(h, wait, x)
  }

  /** Nothing can go; or the first case that can is chosen, and reports what is there for it. */
  ghost predicate FirstChosen(h: Heap, wait: Wait, k: nat, out: Outcome)
    requires AllRefs(h, wait.arms)
  {
    match out
    case Waiting => forall j :: k <= j < |wait.arms| ==> !TurnGoes(h, wait, j)
    case Chosen(i, o) =>
      && i < |wait.arms| && Tells(h, wait.arms[i], wait.mark, o)
      && exists j: nat :: FirstTurn(h, wait, k, j) && i == Turn(wait.start, j, |wait.arms|)
  }

  /** After a pending poll of the case `i` every case can go, or not, as before. */
  lemma PendingTurns(h: Heap, t: Task, wait: Wait, i: nat, w: Waker)
    requires AllRefs(h, wait.arms) && i < |wait.arms| && wait.mark.Some?
    requires PollArm(h, wait.arms[i], Owner(t, i), wait.mark, w).out.Pending?
    ensures var s := PollArm(h, wait.arms[i], Owner(t, i), wait.mark, w);
      var wait1 := wait.(arms := wait.arms[i := s.arm]);
      && OnlyOwn(h, s.h, wait.mark) && AllRefs(s.h, wait1.arms)
      && !CanGo(h, wait.arms[i], wait.mark) && !CanGo(s.h, s.arm, wait.mark)
      && forall j :: 0 <= j < |wait.arms| ==>
           (CanGo(s.h, wait1.arms[j], wait.mark) <==> CanGo(h, wait.arms[j], wait.mark))
  {
    var s := PollArm(h, wait.arms[i], Owner(t, i), wait.mark, w);
    PendingOwn(h, wait.arms[i], Owner(t, i), wait.mark, w);
    PollsReady(h, wait.arms[i], Owner(t, i), wait.mark, w);
    PendingKeeps(h, wait.arms[i], Owner(t, i), wait.mark, w);
    StillPending(h, wait.arms[i], Owner(t, i), wait.mark, w);
    hide CanGo, OnlyOwn, PollArm, Still, SlotOf;
    forall j | 0 <= j < |wait.arms| && j != i
      ensures ArmRefs(s.h, wait.arms[j]) && (CanGo(s.h, wait.arms[j], wait.mark) <==> CanGo(h, wait.arms[j], wait.mark))
    {
      OwnKeeps(h, s.h, wait.arms[j], wait.mark);
    }
  }

  /** A case whose poll was pending cannot go right after it either. */
  lemma StillPending(h: Heap, arm: Arm, me: Owner, mark: Option<nat>, w: Waker)
    requires ArmRefs(h, arm) && mark.Some? && PollArm(h, arm, me, mark, w).out.Pending?
    ensures var s := PollArm(h, arm, me, mark, w); ArmRefs(s.h, s.arm) && !CanGo(s.h, s.arm, mark)
  {
    var s := PollArm(h, arm, me, mark, w);
    PendingKeeps(h, arm, me, mark, w);
    PollsReady(h, arm, me, mark, w);
    PendingOwn(h, arm, me, mark, w);
    OwnKeeps(h, s.h, arm, mark);
    if arm.Recv? { RecvStillPending(h, s.h, arm, s.arm, mark); }
    else if arm.Send? { SendStillPending(h, arm, me, mark, w); }
  }

  lemma RecvStillPending(h: Heap, h1: Heap, arm: Arm, arm1: Arm, mark: Option<nat>)
    requires arm.Recv? && arm1.Recv? && arm1.chan == arm.chan && ArmRefs(h, arm) && ArmRefs(h1, arm1)
    requires ArmRefs(h1, arm) && SlotOf(h1, arm1) == SlotOf(h, arm) && SameQueues(h, h1)
    requires !CanGo(h, arm, mark) && !CanGo(h1, arm, mark)
    ensures !CanGo(h1, arm1, mark)
  {
    hide Eligible;
  }

  lemma SendStillPending(h: Heap, arm: Arm, me: Owner, mark: Option<nat>, w: Waker)
    requires arm.Send? && ArmRefs(h, arm) && PollSend(h, arm, me, mark, w).out.Pending?
    requires ArmRefs(PollSend(h, arm, me, mark, w).h, arm) && !CanGo(PollSend(h, arm, me, mark, w).h, arm, mark)
    requires ArmRefs(PollSend(h, arm, me, mark, w).h, PollSend(h, arm, me, mark, w).arm)
    ensures var s := PollSend(h, arm, me, mark, w); !CanGo(s.h, s.arm, mark)
  {
    hide PushBack, Fill, Fillable, FindWaiter, TasksOf, WaiterWakers;
  }

  lemma {:induction false} PollFromFirst(h: Heap, t: Task, wait: Wait, k: nat, w: Waker)
    requires AllRefs(h, wait.arms) && (wait.mark.Some? || |wait.arms| <= 1)
    ensures FirstChosen(h, wait, k, PollFrom(h, t, wait, k, w).2)
    decreases |wait.arms| - k
  {
    hide CanGo, Tells, PollArm, OnlyOwn, Resolve;
    var n := |wait.arms|;
    if k < n {
      var i := Turn(wait.start, k, n);
      PollsReady(h, wait.arms[i], Owner(t, i), wait.mark, w);
      var s := PollArm(h, wait.arms[i], Owner(t, i), wait.mark, w);
      var wait1 := wait.(arms := wait.arms[i := s.arm]);
      if !s.out.Pending? {
        assert FirstTurn(h, wait, k, k);
      } else if n > 1 {
        PendingTurns(h, t, wait, i, w);
        PollFromFirst(s.h, t, wait1, k + 1, w);
        FirstBefore(h, wait, s.h, wait1, k, i, PollFrom(s.h, t, wait1, k + 1, w).2);
      }
    }
  }

  lemma FirstBefore(h: Heap, wait: Wait, h1: Heap, wait1: Wait, k: nat, i: nat, out: Outcome)
    requires AllRefs(h, wait.arms) && AllRefs(h1, wait1.arms) && wait.mark.Some? && OnlyOwn(h, h1, wait.mark)
    requires k < |wait.arms| && i == Turn(wait.start, k, |wait.arms|)
    requires wait1.start == wait.start && wait1.mark == wait.mark && |wait1.arms| == |wait.arms|
    requires forall j :: 0 <= j < |wait.arms| && j != i ==> wait1.arms[j] == wait.arms[j]
    requires !CanGo(h, wait.arms[i], wait.mark)
    requires forall j :: 0 <= j < |wait.arms| ==>
      (CanGo(h1, wait1.arms[j], wait.mark) <==> CanGo(h, wait.arms[j], wait.mark))
    requires FirstChosen(h1, wait1, k + 1, out)
    ensures FirstChosen(h, wait, k, out)
  {
    hide CanGo, Tells, OnlyOwn, Turn;
    assert forall j :: 0 <= j < |wait.arms| ==> (TurnGoes(h1, wait1, j) <==> TurnGoes(h, wait, j));
    assert !TurnGoes(h, wait, k);
    if out.Chosen? {
      var j: nat :| FirstTurn(h1, wait1, k + 1, j) && out.case_ == Turn(wait.start, j, |wait.arms|);
      assert FirstTurn(h, wait, k, j);
      assert TurnGoes(h, wait, j);
      OwnTells(h, h1, wait.arms[out.case_], wait.mark, out.out);
    }
  }

  /** How many cases come before `i` when they are visited from `start` on and around. */
  function Distance(start: nat, i: nat, n: nat): int {
    if i >= start then i - start else i + n - start
  }

  lemma TurnIsSum(start: nat, j: nat, n: nat)
    requires start < n && j < n
    ensures Turn(start, j, n) == if start + j < n then start + j else start + j - n
  {
    if start + j >= n { ModOnce(start + j, n); }
  }

  lemma TurnDistance(start: nat, j: nat, n: nat)
    requires start < n && j < n
    ensures Distance(start, Turn(start, j, n), n) == j
  {
    TurnIsSum(start, j, n);
    hide Turn;
  }

  lemma DistanceTurn(start: nat, i: nat, n: nat)
    requires start < n && i < n
    ensures 0 <= Distance(start, i, n) < n && Turn(start, Distance(start, i, n), n) == i
  {
    TurnIsSum(start, Distance(start, i, n), n);
    hide Turn;
  }

  /** The case chosen comes before every other that can go; none can go if none was chosen. */
  lemma ChosenFirst(h: Heap, wait: Wait, out: Outcome)
    requires AllRefs(h, wait.arms) && FirstChosen(h, wait, 0, out) && (wait.arms == [] || wait.start < |wait.arms|)
    ensures out.Waiting? <==> forall i :: 0 <= i < |wait.arms| ==> !CanGo(h, wait.arms[i], wait.mark)
    ensures out.Chosen? ==>
      && out.case_ < |wait.arms| && CanGo(h, wait.arms[out.case_], wait.mark)
      && Tells(h, wait.arms[out.case_], wait.mark, out.out)
      && forall i :: 0 <= i < |wait.arms| && CanGo(h, wait.arms[i], wait.mark) ==>
           Distance(wait.start, out.case_, |wait.arms|) <= Distance(wait.start, i, |wait.arms|)
  {
    hide CanGo, Tells, Distance, Turn;
    var n := |wait.arms|;
    forall i | 0 <= i < n && CanGo(h, wait.arms[i], wait.mark)
      ensures out.Chosen? && Distance(wait.start, out.case_, n) <= Distance(wait.start, i, n)
    {
      DistanceTurn(wait.start, i, n);
      assert TurnGoes(h, wait, Distance(wait.start, i, n));
      if out.Chosen? { TurnIs(h, wait, out); }
    }
    if out.Chosen? { TurnIs(h, wait, out); }
  }

  lemma TurnIs(h: Heap, wait: Wait, out: Outcome)
    requires AllRefs(h, wait.arms) && FirstChosen(h, wait, 0, out) && out.Chosen? && wait.start < |wait.arms|
    ensures var j := Distance(wait.start, out.case_, |wait.arms|);
      && 0 <= j < |wait.arms| && TurnGoes(h, wait, j) && CanGo(h, wait.arms[out.case_], wait.mark)
      && forall x :: 0 <= x < j ==> !TurnGoes(h, wait, x)
  {
    hide CanGo, Tells;
    var j: nat :| FirstTurn(h, wait, 0, j) && out.case_ == Turn(wait.start, j, |wait.arms|);
    assert TurnGoes(h, wait, j);
    TurnDistance(wait.start, j, |wait.arms|);
  }

  /**
   In every reachable state, a poll of a wait resolves with a case whose offer
   was taken, if there is one.  Otherwise it waits if and only if no case can
   go; and of those that can it resolves with the first, counted from its start
   and around, and with what is there for it.
   */
  lemma PollChoosesFirst(w: World, t: Task)
    requires Reachable(w) && t in w.waits
    ensures var h, wait := Asleep(w.h, t), w.waits[t];
      var out := PollWait(h, t, wait, Wake(t)).2;
      AllRefs(h, wait.arms) &&
      if exists i :: 0 <= i < |wait.arms| && Delivered(h, wait.arms[i])
      then out.Chosen? && out.out.Sent? && out.case_ < |wait.arms| && Delivered(h, wait.arms[out.case_])
      else
        && (out.Waiting? <==> forall i :: 0 <= i < |wait.arms| ==> !CanGo(h, wait.arms[i], wait.mark))
        && (out.Chosen? ==>
              && out.case_ < |wait.arms| && CanGo(h, wait.arms[out.case_], wait.mark)
              && Tells(h, wait.arms[out.case_], wait.mark, out.out)
              && forall i :: 0 <= i < |wait.arms| && CanGo(h, wait.arms[i], wait.mark) ==>
                   Distance(wait.start, out.case_, |wait.arms|) <= Distance(wait.start, i, |wait.arms|))
  {
    ReachableInv(w);
    var h, wait := Asleep(w.h, t), w.waits[t];
    assert WaitOk(w.h, t, wait);
    forall i | 0 <= i < |wait.arms| ensures ArmRefs(h, wait.arms[i]) {
      assert Fine(w.h, wait.arms[i], Owner(t, i), wait.mark, i in All(|wait.arms|));
    }
    hide Inv, Reachable, WaitOk, Delivered, PollFrom, Resolve, FirstChosen, CanGo, Tells, Distance;
    PollFromFirst(h, t, wait, 0, Wake(t));
    if FirstDelivered(h, wait.arms).None? { ChosenFirst(h, wait, PollFrom(h, t, wait, 0, Wake(t)).2); }
  }
}
