/**
 Where values are: every accepted value is with exactly one receiver, in a
 buffer or in a waiter's slot, and it is accepted once.
 */
module ChanLedger {
  import opened Basics
  import opened ChanSpec
  import opened ChanInv

  function InSlot(w: WaiterRec, x: Item): nat {
    if w.slot == Some(x) then 1 else 0
  }

  function InBufs(h: Heap, x: Item): (r: seq<nat>)
    ensures |r| == |h.chans| && forall c :: 0 <= c < |r| ==> r[c] == multiset(h.chans[c].buf)[x]
  {
    seq(|h.chans|, c requires 0 <= c < |h.chans| => multiset(h.chans[c].buf)[x])
  }

  function InSlots(h: Heap, x: Item): (r: seq<nat>)
    ensures |r| == |h.waiters| && forall w :: 0 <= w < |r| ==> r[w] == InSlot(h.waiters[w], x)
  {
    seq(|h.waiters|, w requires 0 <= w < |h.waiters| => InSlot(h.waiters[w], x))
  }

  /** How often the channels hold `x`: in buffers and in filled slots. */
  function Stored(h: Heap, x: Item): nat {
    Sum(InBufs(h, x)) + Sum(InSlots(h, x))
  }

  /** Every accepted `x` is handed out, held by a channel, or one of `e` in transit. */
  ghost predicate Balance(h: Heap, x: Item, e: nat) {
    h.accepted[x] == h.handed[x] + Stored(h, x) + e
  }

  /** An item is accepted at most once, and its send is known as accepted. */
  ghost predicate AcceptedOnce(h: Heap) {
    forall item :: item in h.accepted ==>
      && h.accepted[item] == 1
      && item.serial < |h.sends| && h.sends[item.serial] == Accepted
  }

  /** An accepted item of a select's send means that the select has its case (but for `busy`). */
  ghost predicate OriginClaimed(h: Heap, busy: Option<nat>) {
    forall item :: item in h.accepted && item.origin.Some? && item.origin != busy ==> Claimed(h, item.origin)
  }

  // ---- sums ---------------------------------------------------------------

  ghost predicate SameBufs(h: Heap, h': Heap) {
    && |h'.chans| == |h.chans|
    && forall c :: 0 <= c < |h.chans| ==> h'.chans[c].buf == h.chans[c].buf
  }

  ghost predicate SameSlots(h: Heap, h': Heap) {
    && |h'.waiters| == |h.waiters|
    && forall w :: 0 <= w < |h.waiters| ==> h'.waiters[w].slot == h.waiters[w].slot
  }

  lemma SameStored(h: Heap, h': Heap, x: Item)
    requires SameBufs(h, h') && SameSlots(h, h')
    ensures Stored(h', x) == Stored(h, x)
  {
    assert InBufs(h', x) == InBufs(h, x);
    assert InSlots(h', x) == InSlots(h, x);
  }

  lemma BufChanged(h: Heap, h': Heap, c: nat, x: Item)
    requires c < |h.chans| && |h'.chans| == |h.chans| && SameSlots(h, h')
    requires forall d :: 0 <= d < |h.chans| && d != c ==> h'.chans[d].buf == h.chans[d].buf
    ensures Stored(h', x) + multiset(h.chans[c].buf)[x] == Stored(h, x) + multiset(h'.chans[c].buf)[x]
  {
    assert InBufs(h', x) == InBufs(h, x)[c := multiset(h'.chans[c].buf)[x]];
    assert InSlots(h', x) == InSlots(h, x);
    SumUpdate(InBufs(h, x), c, multiset(h'.chans[c].buf)[x]);
  }

  lemma SlotChanged(h: Heap, h': Heap, w: nat, x: Item)
    requires w < |h.waiters| && |h'.waiters| == |h.waiters| && SameBufs(h, h')
    requires forall v :: 0 <= v < |h.waiters| && v != w ==> h'.waiters[v].slot == h.waiters[v].slot
    ensures Stored(h', x) + InSlot(h.waiters[w], x) == Stored(h, x) + InSlot(h'.waiters[w], x)
  {
    assert InSlots(h', x) == InSlots(h, x)[w := InSlot(h'.waiters[w], x)];
    assert InBufs(h', x) == InBufs(h, x);
    SumUpdate(InSlots(h, x), w, InSlot(h'.waiters[w], x));
  }

  // ---- one operation ------------------------------------------------------

  lemma PopFrontBalance(h: Heap, c: nat, x: Item)
    requires c < |h.chans| && h.chans[c].buf != [] && Balance(h, x, 0)
    ensures Balance(PopFront(h, c), x, 0)
  {
    BufChanged(h, PopFront(h, c), c, x);
    assert h.chans[c].buf == [h.chans[c].buf[0]] + h.chans[c].buf[1..];
  }

  lemma PushBackBalance(h: Heap, c: nat, item: Item, x: Item)
    requires c < |h.chans| && Balance(h, x, 0)
    ensures Balance(PushBack(h, c, item), x, 0)
  {
    BufChanged(h, PushBack(h, c, item), c, x);
  }

  lemma PushFrontBalance(h: Heap, c: nat, item: Item, x: Item)
    requires c < |h.chans| && Balance(h, x, multiset{item}[x])
    ensures Balance(PushFront(h, c, item), x, 0)
  {
    BufChanged(h, PushFront(h, c, item), c, x);
  }

  lemma TakeSlotBalance(h: Heap, w: nat, x: Item)
    requires w < |h.waiters| && Balance(h, x, 0)
    ensures Balance(TakeSlot(h, w), x, InSlot(h.waiters[w], x))
  {
    SlotChanged(h, TakeSlot(h, w), w, x);
  }

  lemma FillBalance(h: Heap, w: nat, item: Item, x: Item)
    requires w < |h.waiters| && h.waiters[w].slot.None? && Balance(h, x, 0)
    ensures Balance(Fill(h, w, item), x, 0)
  {
    SlotChanged(h, Fill(h, w, item), w, x);
  }

  lemma TakeOfferBalance(h: Heap, c: nat, o: nat, x: Item)
    requires c < |h.chans| && o < |h.offers| && Balance(h, x, 0)
    ensures Balance(TakeOffer(h, c, o), x, 0)
  {
    SameStored(h, TakeOffer(h, c, o), x);
  }

  lemma PostWaiterBalance(h: Heap, c: nat, own: Owner, mark: Option<nat>, w: Waker, x: Item)
    requires c < |h.chans| && Balance(h, x, 0)
    ensures Balance(PostWaiter(h, c, own, mark, w), x, 0)
  {
    var h' := PostWaiter(h, c, own, mark, w);
    assert InBufs(h', x) == InBufs(h, x);
    assert InSlots(h', x) == InSlots(h, x) + [0];
    SumAppend(InSlots(h, x), 0);
  }

  lemma SameBalance(h: Heap, h': Heap, x: Item, e: nat)
    requires SameBufs(h, h') && SameSlots(h, h') && h'.accepted == h.accepted && h'.handed == h.handed
    requires Balance(h, x, e)
    ensures Balance(h', x, e)
  {
    SameStored(h, h', x);
  }

  // ---- polling and withdrawing one case -----------------------------------

  lemma ForgetBalance(h: Heap, c: nat, w: Option<nat>, x: Item, e: nat)
    requires c < |h.chans| && Balance(h, x, e)
    ensures Balance(Forget(h, c, w), x, e)
  {
    SameBalance(h, Forget(h, c, w), x, e);
  }

  lemma TakeFilledBalance(h: Heap, c: nat, w: nat, x: Item)
    requires c < |h.chans| && w < |h.waiters| && h.waiters[w].slot.Some? && Balance(h, x, 0)
    ensures Balance(Forget(Hand(TakeSlot(h, w), h.waiters[w].slot.value), c, Some(w)), x, 0)
  {
    TakeSlotBalance(h, w, x);
    SameStored(TakeSlot(h, w), Forget(Hand(TakeSlot(h, w), h.waiters[w].slot.value), c, Some(w)), x);
  }

  lemma PollRendezvousBalance(h: Heap, arm: Arm, me: Owner, mark: Option<nat>, w: Waker, x: Item)
    requires arm.Recv? && ArmRefs(h, arm) && Balance(h, x, 0)
    ensures Balance(PollRendezvous(h, arm, me, mark, w).h, x, 0)
  {
    hide Stored, Balance, PostWaiter, TakeSlot, Forget;
    var c := arm.chan;
    var core := h.chans[c];
    var h' := PollRendezvous(h, arm, me, mark, w).h;
    if arm.waiter.Some? && h.waiters[arm.waiter.value].slot.Some? {
      TakeFilledBalance(h, c, arm.waiter.value, x);
    } else if core.buf != [] {
      PopFrontBalance(h, c, x);
      ForgetBalance(PopFront(h, c), c, arm.waiter, x, 0);
    } else {
      var k := FindOffer(h, core.offers, mark);
      if k.Some? {
        TakeOfferBalance(h, c, core.offers[k.value], x);
        ForgetBalance(TakeOffer(h, c, core.offers[k.value]), c, arm.waiter, x, 0);
      } else if core.closed {
        ForgetBalance(h, c, arm.waiter, x, 0);
      } else if arm.waiter.None? {
        PostWaiterBalance(h, c, me, mark, w, x);
      } else {
        SameBalance(h, h', x, 0);
      }
    }
  }

  lemma PollArmBalance(h: Heap, arm: Arm, me: Owner, mark: Option<nat>, w: Waker, x: Item)
    requires ArmRefs(h, arm) && Balance(h, x, 0)
    ensures Balance(PollArm(h, arm, me, mark, w).h, x, 0)
  {
    hide Stored, Balance, PollRendezvous, PollSend, PopFront;
    match arm
    case Recv(c, _) =>
      if h.chans[c].cap == 0 { PollRendezvousBalance(h, arm, me, mark, w, x); }
      else if h.chans[c].buf != [] { PopFrontBalance(h, c, x); }
      else { SameBalance(h, PollBuffered(h, arm, w).h, x, 0); }
    case Send(_, _, _, _) => PollSendBalance(h, arm, me, mark, w, x);
    case Other(_) =>
  }

  lemma PollSendBalance(h: Heap, arm: Arm, me: Owner, mark: Option<nat>, w: Waker, x: Item)
    requires arm.Send? && ArmRefs(h, arm) && Balance(h, x, 0)
    ensures Balance(PollSend(h, arm, me, mark, w).h, x, 0)
  {
    hide Stored, Balance, PushBack, Fill;
    var core := h.chans[arm.chan];
    if core.cap != 0 && !core.closed && |core.buf| < core.cap {
      PushBackBalance(h, arm.chan, arm.item, x);
    } else if core.cap == 0 && arm.offer.None? && !core.closed && arm.eager
      && FindWaiter(h, core.waiters, mark).Some? {
      FillBalance(h, core.waiters[FindWaiter(h, core.waiters, mark).value], arm.item, x);
    } else {
      SameBalance(h, PollSend(h, arm, me, mark, w).h, x, 0);
    }
  }

  lemma WithdrawArmBalance(h: Heap, arm: Arm, x: Item)
    requires ArmRefs(h, arm) && Balance(h, x, 0)
    ensures Balance(WithdrawArm(h, arm).0, x, 0)
  {
    hide Stored;
    var h' := WithdrawArm(h, arm).0;
    if arm.Recv? && arm.waiter.Some? {
      var w := arm.waiter.value;
      TakeSlotBalance(h, w, x);
      var h1 := Forget(TakeSlot(h, w), arm.chan, arm.waiter);
      SameBalance(TakeSlot(h, w), h1, x, InSlot(h.waiters[w], x));
      if h.waiters[w].slot.Some? {
        PushFrontBalance(h1, arm.chan, h.waiters[w].slot.value, x);
      }
    } else {
      SameBalance(h, h', x, 0);
    }
  }

  // ---- each value is accepted once ----------------------------------------

  ghost predicate Accepts(h: Heap, busy: Option<nat>) {
    AcceptedOnce(h) && OriginClaimed(h, busy)
  }

  /** Nothing was accepted; sends only end as refused and marks only become claimed. */
  ghost predicate AcceptsNothing(h: Heap, h': Heap) {
    && h'.accepted == h.accepted
    && |h.sends| <= |h'.sends| && |h.marks| <= |h'.marks|
    && (forall k :: 0 <= k < |h.sends| && h.sends[k] == Accepted ==> h'.sends[k] == Accepted)
    && (forall m :: 0 <= m < |h.marks| && h.marks[m].claimed ==> h'.marks[m].claimed)
  }

  lemma AcceptsNothingKeeps(h: Heap, h': Heap, busy: Option<nat>)
    requires Accepts(h, busy) && AcceptsNothing(h, h')
    ensures Accepts(h', busy)
  {
  }

  /** One value of a send in flight was accepted. */
  lemma AcceptKeeps(h: Heap, h': Heap, item: Item, busy: Option<nat>)
    requires Accepts(h, None) && h'.accepted == h.accepted + multiset{item}
    requires item.serial < |h.sends| && h.sends[item.serial].InFlight?
    requires h'.sends == h.sends[item.serial := Accepted]
    requires |h.marks| <= |h'.marks|
    requires forall m :: 0 <= m < |h.marks| && h.marks[m].claimed ==> h'.marks[m].claimed
    requires item.origin.Some? && item.origin != busy ==> Claimed(h', item.origin)
    ensures Accepts(h', busy)
  {
    assert item !in h.accepted;
  }

  lemma TakeOfferAccepts(h: Heap, c: nat, o: nat, me: Option<nat>)
    requires Structure(h) && c < |h.chans| && o < |h.offers| && Eligible(h, o, me) && Accepts(h, None)
    ensures Accepts(TakeOffer(h, c, o), None)
  {
    assert OfferOk(h, o);
    AcceptKeeps(h, TakeOffer(h, c, o), h.offers[o].item, None);
  }

  lemma PollRendezvousAccepts(h: Heap, arm: Arm, me: Owner, mark: Option<nat>, w: Waker)
    requires Structure(h) && arm.Recv? && ArmRefs(h, arm) && Accepts(h, None)
    ensures Accepts(PollRendezvous(h, arm, me, mark, w).h, None)
  {
    hide Accepts, Structure;
    var s := PollRendezvous(h, arm, me, mark, w);
    var core := h.chans[arm.chan];
    var k := FindOffer(h, core.offers, mark);
    if k.Some? && core.buf == [] && !(arm.waiter.Some? && h.waiters[arm.waiter.value].slot.Some?) {
      var h1 := TakeOffer(h, arm.chan, core.offers[k.value]);
      TakeOfferAccepts(h, arm.chan, core.offers[k.value], mark);
      AcceptsNothingKeeps(h1, s.h, None);
    } else {
      AcceptsNothingKeeps(h, s.h, None);
    }
  }

  lemma PollSendAccepts(h: Heap, arm: Arm, me: Owner, mark: Option<nat>, w: Waker)
    requires Structure(h) && ArmOk(h, arm, me, mark) && arm.Send? && Accepts(h, None)
    ensures Accepts(PollSend(h, arm, me, mark, w).h, mark)
    ensures PollSend(h, arm, me, mark, w).out.Pending? ==> Accepts(PollSend(h, arm, me, mark, w).h, None)
  {
    hide Structure, Accepts, Held, TasksOf, WaiterWakers;
    var s := PollSend(h, arm, me, mark, w);
    if s.h.accepted == h.accepted {
      SendAcceptsNothing(h, arm, me, mark, w);
      AcceptsNothingKeeps(h, s.h, None);
      AcceptsBusy(s.h, mark);
    } else {
      AcceptKeeps(h, s.h, arm.item, mark);
    }
  }

  lemma SendAcceptsNothing(h: Heap, arm: Arm, me: Owner, mark: Option<nat>, w: Waker)
    requires ArmOk(h, arm, me, mark) && arm.Send? && PollSend(h, arm, me, mark, w).h.accepted == h.accepted
    ensures AcceptsNothing(h, PollSend(h, arm, me, mark, w).h)
  {
    hide Held, TasksOf, WaiterWakers;
  }

  lemma AcceptsBusy(h: Heap, busy: Option<nat>)
    requires Accepts(h, None)
    ensures Accepts(h, busy)
  {
  }

  /** Polling a case: a value sent by it is the one that may precede the claim of its select. */
  lemma PollArmAccepts(h: Heap, arm: Arm, me: Owner, mark: Option<nat>, w: Waker)
    requires Structure(h) && ArmOk(h, arm, me, mark) && Accepts(h, None)
    ensures Accepts(PollArm(h, arm, me, mark, w).h, mark)
    ensures PollArm(h, arm, me, mark, w).out.Pending? ==> Accepts(PollArm(h, arm, me, mark, w).h, None)
  {
    match arm
    case Recv(c, _) =>
      if h.chans[c].cap == 0 { PollRendezvousAccepts(h, arm, me, mark, w); }
      else { AcceptsNothingKeeps(h, PollArm(h, arm, me, mark, w).h, None); }
    case Send(_, _, _, _) => PollSendAccepts(h, arm, me, mark, w);
    case Other(_) =>
  }

  lemma WithdrawArmAccepts(h: Heap, arm: Arm, busy: Option<nat>)
    requires ArmRefs(h, arm) && Accepts(h, busy)
    ensures Accepts(WithdrawArm(h, arm).0, busy)
  {
    AcceptsNothingKeeps(h, WithdrawArm(h, arm).0, busy);
  }
}
