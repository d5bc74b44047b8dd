/** What no channel operation ever undoes: ends of sends and offers, claims, closes, and FIFO order. */
module ChanProgress {
  import opened Basics
  import opened ChanSpec
  import opened ChanInv

  /**
   Between the two states of a channel, with no put-back in between: what
   was received and what is left is what was there followed by what was
   pushed, in order.  A closed channel stays closed and accepts nothing.
   */
  ghost predicate Fifo(a: ChanRec, b: ChanRec) {
    && b.cap == a.cap
    && (a.closed ==> b.closed && b.pushed == a.pushed)
    && a.putBacks <= b.putBacks
    && a.pushed <= b.pushed
    && (b.putBacks == a.putBacks ==> b.popped + b.buf == a.popped + a.buf + b.pushed[|a.pushed|..])
    && |b.buf| <= (if |a.buf| > a.cap then |a.buf| else a.cap) + (b.putBacks - a.putBacks)
  }

  lemma FifoRefl(a: ChanRec)
    ensures Fifo(a, a)
  {
    assert a.pushed[|a.pushed|..] == [];
  }

  lemma FifoTrans(a: ChanRec, b: ChanRec, c: ChanRec)
    requires Fifo(a, b) && Fifo(b, c)
    ensures Fifo(a, c)
  {
    if c.putBacks == a.putBacks {
      assert b.pushed[|a.pushed|..] + c.pushed[|b.pushed|..] == c.pushed[|a.pushed|..];
      assert a.popped + a.buf + b.pushed[|a.pushed|..] + c.pushed[|b.pushed|..]
          == a.popped + a.buf + (b.pushed[|a.pushed|..] + c.pushed[|b.pushed|..]);
    }
  }

  ghost predicate OfferAfter(a: OfferRec, b: OfferRec) {
    && b.item == a.item && b.select == a.select && b.chan == a.chan && b.owner == a.owner
    && (a.state != Open ==> b.state == a.state)
  }

  ghost predicate OnOpen(h: Heap, c: nat) {
    c < |h.chans| ==> !h.chans[c].closed
  }

  /** A waiter on a closed channel keeps its slot as it is, or empties it. */
  ghost predicate WaiterAfter(h: Heap, a: WaiterRec, b: WaiterRec) {
    b.chan == a.chan && (OnOpen(h, a.chan) || b.slot == a.slot || b.slot.None?)
  }

  /** Nobody joins the queues of a channel closed in `h`, and no slot there is filled. */
  ghost predicate ClosedQuiet(h: Heap, h': Heap)
    requires |h.offers| <= |h'.offers|
  {
    && |h.waiters| <= |h'.waiters|
    && (forall o {:trigger h'.offers[o]} :: |h.offers| <= o < |h'.offers| ==> OnOpen(h, h'.offers[o].chan))
    && (forall w {:trigger h'.waiters[w]} :: |h.waiters| <= w < |h'.waiters| ==> OnOpen(h, h'.waiters[w].chan))
    && (forall w {:trigger h'.waiters[w]} :: 0 <= w < |h.waiters| ==> WaiterAfter(h, h.waiters[w], h'.waiters[w]))
  }

  ghost predicate After(h: Heap, h': Heap) {
    && |h.chans| <= |h'.chans| && |h.offers| <= |h'.offers|
    && |h.marks| <= |h'.marks| && |h.sends| <= |h'.sends|
    && (forall x: Item :: h.accepted[x] <= h'.accepted[x])
    && (forall c {:trigger h'.chans[c]} :: 0 <= c < |h.chans| ==> Fifo(h.chans[c], h'.chans[c]))
    && (forall c {:trigger h'.chans[c]} :: |h.chans| <= c < |h'.chans| ==>
          Fifo(FreshChan(h'.chans[c].cap), h'.chans[c]))
    && (forall o {:trigger h'.offers[o]} :: 0 <= o < |h.offers| ==> OfferAfter(h.offers[o], h'.offers[o]))
    && (forall m {:trigger h'.marks[m]} :: 0 <= m < |h.marks| ==>
          h'.marks[m].owner == h.marks[m].owner && (h.marks[m].claimed ==> h'.marks[m].claimed))
    && (forall k {:trigger h'.sends[k]} :: 0 <= k < |h.sends| && !h.sends[k].InFlight? ==> h'.sends[k] == h.sends[k])
    && ClosedQuiet(h, h')
  }

  lemma AfterRefl(h: Heap)
    ensures After(h, h)
  {
    forall c | 0 <= c < |h.chans| ensures Fifo(h.chans[c], h.chans[c]) { FifoRefl(h.chans[c]); }
  }

  lemma ClosedQuietTrans(h: Heap, h1: Heap, h2: Heap)
    requires After(h, h1) && After(h1, h2)
    ensures ClosedQuiet(h, h2)
  {
    assert forall c :: 0 <= c < |h.chans| ==> Fifo(h.chans[c], h1.chans[c]);
    assert forall c: nat :: OnOpen(h1, c) ==> OnOpen(h, c);
    forall o | |h.offers| <= o < |h2.offers| ensures OnOpen(h, h2.offers[o].chan) {
      if o < |h1.offers| { assert OfferAfter(h1.offers[o], h2.offers[o]); }
    }
    forall w | 0 <= w < |h1.waiters| ensures h2.waiters[w].chan == h1.waiters[w].chan {
      assert WaiterAfter(h1, h1.waiters[w], h2.waiters[w]);
    }
    forall w | 0 <= w < |h.waiters| ensures WaiterAfter(h, h.waiters[w], h2.waiters[w]) {
      assert WaiterAfter(h, h.waiters[w], h1.waiters[w]) && WaiterAfter(h1, h1.waiters[w], h2.waiters[w]);
    }
  }

  lemma AfterTrans(h: Heap, h1: Heap, h2: Heap)
    requires After(h, h1) && After(h1, h2)
    ensures After(h, h2)
  {
    ClosedQuietTrans(h, h1, h2);
    hide ClosedQuiet;
    forall c | 0 <= c < |h.chans| ensures Fifo(h.chans[c], h2.chans[c]) {
      assert Fifo(h.chans[c], h1.chans[c]) && Fifo(h1.chans[c], h2.chans[c]);
      FifoTrans(h.chans[c], h1.chans[c], h2.chans[c]);
    }
    forall c | |h.chans| <= c < |h2.chans| ensures Fifo(FreshChan(h2.chans[c].cap), h2.chans[c]) {
      if c < |h1.chans| {
        assert Fifo(FreshChan(h1.chans[c].cap), h1.chans[c]) && Fifo(h1.chans[c], h2.chans[c]);
        FifoTrans(FreshChan(h1.chans[c].cap), h1.chans[c], h2.chans[c]);
      }
    }
    forall o | 0 <= o < |h.offers| ensures OfferAfter(h.offers[o], h2.offers[o]) {
      assert OfferAfter(h.offers[o], h1.offers[o]) && OfferAfter(h1.offers[o], h2.offers[o]);
    }
    forall m | 0 <= m < |h.marks| ensures
      h2.marks[m].owner == h.marks[m].owner && (h.marks[m].claimed ==> h2.marks[m].claimed)
    {
      assert h1.marks[m].owner == h.marks[m].owner;
    }
    forall k | 0 <= k < |h.sends| && !h.sends[k].InFlight? ensures h2.sends[k] == h.sends[k] {
      assert h1.sends[k] == h.sends[k];
    }
  }

  /** The chans of `h` and `h'` are the same but for queues and waker lists. */
  ghost predicate SameHistory(a: ChanRec, b: ChanRec) {
    && b.cap == a.cap && (a.closed ==> b.closed) && b.buf == a.buf
    && b.pushed == a.pushed && b.popped == a.popped && b.putBacks == a.putBacks
  }

  lemma HistoryFifo(a: ChanRec, b: ChanRec)
    requires SameHistory(a, b)
    ensures Fifo(a, b)
  {
    FifoRefl(a);
  }

  ghost predicate SameHistories(h: Heap, h': Heap) {
    && |h'.chans| == |h.chans|
    && forall c {:trigger h'.chans[c]} :: 0 <= c < |h.chans| ==> SameHistory(h.chans[c], h'.chans[c])
  }

  lemma ChansAfter(h: Heap, h': Heap)
    requires SameHistories(h, h')
    ensures forall c :: 0 <= c < |h.chans| ==> Fifo(h.chans[c], h'.chans[c])
  {
    forall c | 0 <= c < |h.chans| ensures Fifo(h.chans[c], h'.chans[c]) {
      HistoryFifo(h.chans[c], h'.chans[c]);
    }
  }

  lemma OneChanAfter(h: Heap, h': Heap, c: nat)
    requires c < |h.chans| && |h'.chans| == |h.chans| && Fifo(h.chans[c], h'.chans[c])
    requires forall d :: 0 <= d < |h.chans| && d != c ==> h'.chans[d] == h.chans[d]
    ensures forall d :: 0 <= d < |h.chans| ==> Fifo(h.chans[d], h'.chans[d])
  {
    forall d | 0 <= d < |h.chans| ensures Fifo(h.chans[d], h'.chans[d]) {
      if d != c { FifoRefl(h.chans[d]); }
    }
  }

  // ---- the operations -----------------------------------------------------

  lemma PopFrontAfter(h: Heap, c: nat)
    requires c < |h.chans| && h.chans[c].buf != []
    ensures After(h, PopFront(h, c))
  {
    var a, b := h.chans[c], PopFront(h, c).chans[c];
    assert b.popped + b.buf == a.popped + a.buf;
    assert b.pushed[|a.pushed|..] == [];
    OneChanAfter(h, PopFront(h, c), c);
  }

  lemma PushBackAfter(h: Heap, c: nat, item: Item)
    requires c < |h.chans| && !h.chans[c].closed && |h.chans[c].buf| < h.chans[c].cap
    requires item.serial < |h.sends| && h.sends[item.serial].InFlight?
    ensures After(h, PushBack(h, c, item))
  {
    var a, b := h.chans[c], PushBack(h, c, item).chans[c];
    assert b.pushed[|a.pushed|..] == [item];
    assert b.popped + b.buf == a.popped + a.buf + [item];
    OneChanAfter(h, PushBack(h, c, item), c);
  }

  lemma PushFrontAfter(h: Heap, c: nat, item: Item)
    requires c < |h.chans|
    ensures After(h, PushFront(h, c, item))
  {
    OneChanAfter(h, PushFront(h, c, item), c);
  }

  lemma TakeOfferAfter(h: Heap, c: nat, o: nat, mark: Option<nat>)
    requires Structure(h) && c < |h.chans| && o < |h.offers| && Eligible(h, o, mark)
    ensures After(h, TakeOffer(h, c, o))
  {
    InFlightOffer(h, o);
    TakeOfferChans(h, c, o);
    hide Structure, Fifo, TasksOf;
  }

  lemma TakeOfferChans(h: Heap, c: nat, o: nat)
    requires c < |h.chans| && o < |h.offers|
    ensures |TakeOffer(h, c, o).chans| == |h.chans|
    ensures forall d :: 0 <= d < |h.chans| ==> Fifo(h.chans[d], TakeOffer(h, c, o).chans[d])
  {
    ChansAfter(h, TakeOffer(h, c, o));
  }

  lemma InFlightOffer(h: Heap, o: nat)
    requires Structure(h) && o < |h.offers| && h.offers[o].state == Open
    ensures h.offers[o].item.serial < |h.sends| && h.sends[h.offers[o].item.serial].InFlight?
  {
    assert OfferOk(h, o);
  }

  lemma FillAfter(h: Heap, w: nat, item: Item)
    requires w < |h.waiters| && item.serial < |h.sends| && h.sends[item.serial].InFlight?
    requires OnOpen(h, h.waiters[w].chan)
    ensures After(h, Fill(h, w, item))
  {
    ChansAfter(h, Fill(h, w, item));
  }

  lemma PostOfferAfter(h: Heap, c: nat, item: Item, own: Owner, mark: Option<nat>, w: Waker)
    requires c < |h.chans| && !h.chans[c].closed
    ensures After(h, PostOffer(h, c, item, own, mark, w))
  {
    ChansAfter(h, PostOffer(h, c, item, own, mark, w));
  }

  lemma WithdrawOfferAfter(h: Heap, c: nat, o: nat)
    requires c < |h.chans| && o < |h.offers| && h.offers[o].state == Open
    ensures After(h, WithdrawOffer(h, c, o))
  {
    ChansAfter(h, WithdrawOffer(h, c, o));
  }

  lemma CloseAfter(h: Heap, c: nat)
    requires Structure(h) && c < |h.chans|
    ensures After(h, Close(h, c))
  {
    ChansAfter(h, Close(h, c));
    forall k | k in SerialsOf(h.offers, h.chans[c].offers) ensures k < |h.sends| && h.sends[k].InFlight? {
      var o :| o in h.chans[c].offers && o < |h.offers| && h.offers[o].item.serial == k;
      assert OfferOk(h, o);
    }
  }

  /** Operations on queues and wakers alone. */
  lemma QuietAfter(h: Heap, h': Heap)
    requires SameHistories(h, h') && h'.marks == h.marks && h'.sends == h.sends && h'.accepted == h.accepted
    requires |h'.offers| == |h.offers| && ClosedQuiet(h, h')
    requires forall o :: 0 <= o < |h.offers| ==> OfferAfter(h.offers[o], h'.offers[o])
    ensures After(h, h')
  {
    ChansAfter(h, h');
  }

  lemma RefuseAfter(h: Heap, k: nat)
    ensures After(h, Refuse(h, k))
  {
    ChansAfter(h, Refuse(h, k));
  }

  lemma ClaimAfter(h: Heap, mark: Option<nat>)
    ensures After(h, Claim(h, mark))
  {
    ChansAfter(h, Claim(h, mark));
  }

  // ---- one case -----------------------------------------------------------

  lemma ForgetAfter(h: Heap, h1: Heap, c: nat, w: Option<nat>)
    requires After(h, h1) && c < |h1.chans|
    ensures After(h, Forget(h1, c, w))
  {
    QuietAfter(h1, Forget(h1, c, w));
    AfterTrans(h, h1, Forget(h1, c, w));
  }

  lemma PollRendezvousAfter(h: Heap, arm: Arm, me: Owner, mark: Option<nat>, w: Waker)
    requires Structure(h) && arm.Recv? && ArmRefs(h, arm)
    ensures After(h, PollRendezvous(h, arm, me, mark, w).h)
  {
    hide After, Structure, OfferAfter, SameHistories;
    var c := arm.chan;
    var core := h.chans[c];
    if arm.waiter.Some? && h.waiters[arm.waiter.value].slot.Some? {
      SlotTakenAfter(h, c, arm.waiter.value);
    } else if core.buf != [] {
      PopFrontAfter(h, c);
      ForgetAfter(h, PopFront(h, c), c, arm.waiter);
    } else {
      var k := FindOffer(h, core.offers, mark);
      if k.Some? {
        assert c < |TakeOffer(h, c, core.offers[k.value]).chans|;
        TakeOfferAfter(h, c, core.offers[k.value], mark);
        ForgetAfter(h, TakeOffer(h, c, core.offers[k.value]), c, arm.waiter);
      } else if core.closed {
        AfterRefl(h);
        ForgetAfter(h, h, c, arm.waiter);
      } else {
        WaitAfter(h, arm, me, mark, w);
      }
    }
  }

  lemma SlotTakenAfter(h: Heap, c: nat, w: nat)
    requires c < |h.chans| && w < |h.waiters| && h.waiters[w].slot.Some?
    ensures After(h, Forget(Hand(TakeSlot(h, w), h.waiters[w].slot.value), c, Some(w)))
  {
    QuietAfter(h, Forget(Hand(TakeSlot(h, w), h.waiters[w].slot.value), c, Some(w)));
  }

  lemma WaitAfter(h: Heap, arm: Arm, me: Owner, mark: Option<nat>, w: Waker)
    requires arm.Recv? && ArmRefs(h, arm) && PollRendezvous(h, arm, me, mark, w).out.Pending?
    ensures After(h, PollRendezvous(h, arm, me, mark, w).h)
  {
    QuietAfter(h, PollRendezvous(h, arm, me, mark, w).h);
  }

  lemma PollSendAfter(h: Heap, arm: Arm, me: Owner, mark: Option<nat>, w: Waker)
    requires Structure(h) && ArmOk(h, arm, me, mark) && arm.Send?
    ensures After(h, PollSend(h, arm, me, mark, w).h)
  {
    hide After, Structure, Held, PushBack, PostOffer, Fill;
    var c := arm.chan;
    var core := h.chans[c];
    if core.cap != 0 {
      if core.closed { RefuseAfter(h, arm.item.serial); }
      else if |core.buf| < core.cap { PushBackAfter(h, c, arm.item); }
      else { RegisterSendAfter(h, c, w); }
    } else if arm.offer.Some? {
      PollOfferAfter(h, arm.offer.value, w);
      AfterRefl(h);
    } else if core.closed {
      RefuseAfter(h, arm.item.serial);
    } else if arm.eager {
      var k := FindWaiter(h, core.waiters, mark);
      if k.Some? {
        QueuedHere(h, c, core.waiters[k.value]);
        FillAfter(h, core.waiters[k.value], arm.item);
      } else {
        AfterRefl(h);
      }
    } else {
      PostOfferAfter(h, c, arm.item, me, mark, w);
    }
  }

  lemma QueuedHere(h: Heap, c: nat, w: nat)
    requires Structure(h) && c < |h.chans| && w in h.chans[c].waiters
    ensures w < |h.waiters| && h.waiters[w].chan == c
  {
    assert ChanOk(h, c);
  }

  lemma RegisterSendAfter(h: Heap, c: nat, w: Waker)
    requires c < |h.chans|
    ensures After(h, RegisterSend(h, c, w))
  {
    QuietAfter(h, RegisterSend(h, c, w));
  }

  lemma PollOfferAfter(h: Heap, o: nat, w: Waker)
    requires o < |h.offers|
    ensures After(h, h.(offers := h.offers[o := h.offers[o].(waker := w)]))
  {
    QuietAfter(h, h.(offers := h.offers[o := h.offers[o].(waker := w)]));
  }

  lemma PollArmAfter(h: Heap, arm: Arm, me: Owner, mark: Option<nat>, w: Waker)
    requires Structure(h) && ArmOk(h, arm, me, mark)
    ensures After(h, PollArm(h, arm, me, mark, w).h)
  {
    hide After;
    match arm
    case Recv(c, _) =>
      if h.chans[c].cap == 0 { PollRendezvousAfter(h, arm, me, mark, w); }
      else if h.chans[c].buf != [] { PopFrontAfter(h, c); }
      else { QuietAfter(h, PollBuffered(h, arm, w).h); }
    case Send(_, _, _, _) => PollSendAfter(h, arm, me, mark, w);
    case Other(_) => AfterRefl(h);
  }

  lemma WithdrawArmAfter(h: Heap, arm: Arm, me: Owner, mark: Option<nat>)
    requires Structure(h) && ArmOk(h, arm, me, mark)
    ensures After(h, WithdrawArm(h, arm).0)
  {
    hide After;
    match arm
    case Recv(c, w) =>
      if w.None? { AfterRefl(h); }
      else {
        var h1 := Forget(TakeSlot(h, w.value), c, w);
        QuietAfter(h, h1);
        if h.waiters[w.value].slot.Some? {
          PushFrontAfter(h1, c, h.waiters[w.value].slot.value);
          AfterTrans(h, h1, PushFront(h1, c, h.waiters[w.value].slot.value));
        }
      }
    case Send(c, item, o, _) =>
      if o.None? { RefuseAfter(h, item.serial); }
      else if h.offers[o.value].state != Open { AfterRefl(h); }
      else { WithdrawOfferAfter(h, c, o.value); }
    case Other(_) => AfterRefl(h);
  }
}
