/** Polling and withdrawing one case: what it keeps, and what it leaves behind. */
module ChanArm {
  import opened Basics
  import opened ChanSpec
  import opened ChanInv

  // ---- the heap stays well formed -----------------------------------------

  lemma ForgetTakenStructure(h: Heap, arm: Arm, o: nat, mark: Option<nat>)
    requires Structure(h) && arm.Recv? && ArmRefs(h, arm) && o in h.chans[arm.chan].offers && Eligible(h, o, mark)
    requires arm.waiter.Some? ==> h.waiters[arm.waiter.value].slot.None?
    ensures Structure(Forget(TakeOffer(h, arm.chan, o), arm.chan, arm.waiter))
  {
    TakeOfferStructure(h, arm.chan, o, mark);
    ForgetStructure(TakeOffer(h, arm.chan, o), arm.chan, arm.waiter);
  }

  lemma PollRendezvousStructure(h: Heap, arm: Arm, me: Owner, mark: Option<nat>, w: Waker)
    requires Structure(h) && ArmOk(h, arm, me, mark) && arm.Recv? && h.chans[arm.chan].cap == 0
    ensures Structure(PollRendezvous(h, arm, me, mark, w).h)
  {
    hide Structure, Held, TakeOffer;
    var c := arm.chan;
    var core := h.chans[c];
    if arm.waiter.Some? && h.waiters[arm.waiter.value].slot.Some? {
      SlotTakenStructure(h, c, arm.waiter.value, h.waiters[arm.waiter.value].slot.value);
    } else if core.buf != [] {
      PopFrontStructure(h, c);
      ForgetStructure(PopFront(h, c), c, arm.waiter);
    } else {
      var k := FindOffer(h, core.offers, mark);
      if k.Some? {
        ForgetTakenStructure(h, arm, core.offers[k.value], mark);
      } else if core.closed {
        ForgetStructure(h, c, arm.waiter);
      } else if arm.waiter.Some? {
        SetWaiterWakerStructure(h, arm.waiter.value, w);
      } else {
        PostWaiterStructure(h, c, me, mark, w);
      }
    }
  }

  lemma SlotTakenStructure(h: Heap, c: nat, w: nat, item: Item)
    requires Structure(h) && c < |h.chans| && w < |h.waiters|
    ensures Structure(Forget(Hand(TakeSlot(h, w), item), c, Some(w)))
  {
    TakeSlotStructure(h, w);
    ForgetStructure(TakeSlot(h, w), c, Some(w));
    HandStructure(Forget(TakeSlot(h, w), c, Some(w)), item);
  }

  lemma HandStructure(h: Heap, item: Item)
    requires Structure(h)
    ensures Structure(Hand(h, item))
  {
  }

  lemma PollSendStructure(h: Heap, arm: Arm, me: Owner, mark: Option<nat>, w: Waker)
    requires Structure(h) && ArmOk(h, arm, me, mark) && arm.Send?
    ensures Structure(PollSend(h, arm, me, mark, w).h)
  {
    var c := arm.chan;
    var core := h.chans[c];
    if core.cap != 0 {
      if core.closed {
        RefuseStructure(h, arm.item.serial, me);
      } else if |core.buf| < core.cap {
        PushBackStructure(h, c, arm.item, me);
      } else {
        RegisterSendStructure(h, c, w);
      }
    } else if arm.offer.Some? {
      SetOfferWakerStructure(h, arm.offer.value, w);
    } else if core.closed {
      RefuseStructure(h, arm.item.serial, me);
    } else if arm.eager {
      var k := FindWaiter(h, core.waiters, mark);
      if k.Some? {
        assert core.waiters[k.value] in core.waiters;
        FillStructure(h, core.waiters[k.value], arm.item, me);
      }
    } else {
      PostOfferStructure(h, c, arm.item, me, mark, w);
    }
  }

  lemma PollArmStructure(h: Heap, arm: Arm, me: Owner, mark: Option<nat>, w: Waker)
    requires Structure(h) && ArmOk(h, arm, me, mark)
    ensures Structure(PollArm(h, arm, me, mark, w).h)
  {
    match arm
    case Recv(c, _) =>
      if h.chans[c].cap != 0 {
        if h.chans[c].buf != [] { PopFrontStructure(h, c); } else { RegisterRecvStructure(h, c, w); }
      } else {
        PollRendezvousStructure(h, arm, me, mark, w);
      }
    case Send(_, _, _, _) => PollSendStructure(h, arm, me, mark, w);
    case Other(_) =>
  }

  lemma WithdrawArmStructure(h: Heap, arm: Arm, me: Owner, mark: Option<nat>)
    requires Structure(h) && ArmOk(h, arm, me, mark)
    ensures Structure(WithdrawArm(h, arm).0)
  {
    match arm
    case Recv(c, w) =>
      if w.Some? {
        var slot := h.waiters[w.value].slot;
        TakeSlotStructure(h, w.value);
        ForgetStructure(TakeSlot(h, w.value), c, w);
        if slot.Some? { PushFrontStructure(Forget(TakeSlot(h, w.value), c, w), c, slot.value); }
      }
    case Send(c, item, o, _) =>
      if o.None? { RefuseStructure(h, item.serial, me); }
      else if h.offers[o.value].state == Open { WithdrawOfferStructure(h, c, o.value); }
    case Other(_) =>
  }

  // ---- other cases stay fine ----------------------------------------------

  lemma ForgetTakenFine(h: Heap, arm: Arm, o: nat, me: Owner, mark: Option<nat>,
                        arm2: Arm, own2: Owner, mark2: Option<nat>, q: bool)
    requires Structure(h) && ArmOk(h, arm, me, mark) && arm.Recv?
    requires o in h.chans[arm.chan].offers && Eligible(h, o, mark)
    requires arm.waiter.Some? ==> h.waiters[arm.waiter.value].slot.None?
    requires Fine(h, arm2, own2, mark2, q) && own2 != me
    ensures Fine(Forget(TakeOffer(h, arm.chan, o), arm.chan, arm.waiter), arm2, own2, mark2, q)
  {
    TakeOfferStructure(h, arm.chan, o, mark);
    TakeOfferFine(h, arm.chan, o, mark, arm2, own2, mark2, q);
    ForgetFine(TakeOffer(h, arm.chan, o), arm.chan, arm.waiter, arm2, own2, mark2, q);
  }

  lemma ForgetFilledFine(h: Heap, arm: Arm, me: Owner, mark: Option<nat>,
                         arm2: Arm, own2: Owner, mark2: Option<nat>, q: bool)
    requires Structure(h) && ArmOk(h, arm, me, mark) && arm.Recv? && arm.waiter.Some?
    requires Fine(h, arm2, own2, mark2, q) && own2 != me
    ensures Fine(Forget(TakeSlot(h, arm.waiter.value), arm.chan, arm.waiter), arm2, own2, mark2, q)
  {
    TakeSlotStructure(h, arm.waiter.value);
    TakeSlotFine(h, arm.waiter.value, arm2, own2, mark2, q);
    ForgetFine(TakeSlot(h, arm.waiter.value), arm.chan, arm.waiter, arm2, own2, mark2, q);
  }

  lemma HandFine(h: Heap, item: Item, arm: Arm, own: Owner, mark: Option<nat>, q: bool)
    requires Fine(h, arm, own, mark, q)
    ensures Fine(Hand(h, item), arm, own, mark, q)
  {}

  lemma PollRendezvousFine(h: Heap, arm: Arm, me: Owner, mark: Option<nat>, w: Waker,
                           arm2: Arm, own2: Owner, mark2: Option<nat>, q: bool)
    requires Structure(h) && ArmOk(h, arm, me, mark) && arm.Recv? && h.chans[arm.chan].cap == 0
    requires Fine(h, arm2, own2, mark2, q) && own2 != me
    ensures Fine(PollRendezvous(h, arm, me, mark, w).h, arm2, own2, mark2, q)
  {
    hide Quiet, Held, Structure, Fine;
    var c := arm.chan;
    var core := h.chans[c];
    if arm.waiter.Some? && h.waiters[arm.waiter.value].slot.Some? {
      var h1 := Forget(TakeSlot(h, arm.waiter.value), c, arm.waiter);
      ForgetFilledFine(h, arm, me, mark, arm2, own2, mark2, q);
      HandFine(h1, h.waiters[arm.waiter.value].slot.value, arm2, own2, mark2, q);
    } else if core.buf != [] {
      PopFrontStructure(h, c);
      PopFrontFine(h, c, arm2, own2, mark2, q);
      ForgetFine(PopFront(h, c), c, arm.waiter, arm2, own2, mark2, q);
    } else {
      var k := FindOffer(h, core.offers, mark);
      if k.Some? {
        ForgetTakenFine(h, arm, core.offers[k.value], me, mark, arm2, own2, mark2, q);
      } else if core.closed {
        ForgetFine(h, c, arm.waiter, arm2, own2, mark2, q);
      } else if arm.waiter.Some? {
        SetWaiterWakerFine(h, arm.waiter.value, w, arm2, own2, mark2, q);
      } else {
        PostWaiterFine(h, c, me, mark, w, arm2, own2, mark2, q);
      }
    }
  }

  /** What a send case holds: a send in flight while it has no offer, or its own offer. */
  lemma SendHolds(h: Heap, arm: Arm, me: Owner, mark: Option<nat>)
    requires ArmOk(h, arm, me, mark) && arm.Send?
    ensures arm.item.serial < |h.sends| && ArmRefs(h, arm)
    ensures arm.offer.None? ==> h.sends[arm.item.serial] == InFlight(me)
    ensures arm.offer.Some? ==> h.offers[arm.offer.value].owner == me && h.chans[arm.chan].cap == 0
  {
  }

  lemma QueuedWaiter(h: Heap, c: nat, w: nat)
    requires Structure(h) && c < |h.chans| && w in h.chans[c].waiters
    ensures w < |h.waiters| && Queued(h, w)
  {
    assert ChanOk(h, c);
  }

  lemma PollSendFine(h: Heap, arm: Arm, me: Owner, mark: Option<nat>, w: Waker,
                     arm2: Arm, own2: Owner, mark2: Option<nat>, q: bool)
    requires Structure(h) && ArmOk(h, arm, me, mark) && arm.Send?
    requires Fine(h, arm2, own2, mark2, q) && own2 != me
    ensures Fine(PollSend(h, arm, me, mark, w).h, arm2, own2, mark2, q)
  {
    SendHolds(h, arm, me, mark);
    hide Fine, ArmOk, PushBack, PostOffer;
    var c := arm.chan;
    var core := h.chans[c];
    if core.cap != 0 {
      if core.closed {
        RefuseFine(h, arm.item.serial, me, arm2, own2, mark2, q);
      } else if |core.buf| < core.cap {
        PushBackFine(h, c, arm.item, me, arm2, own2, mark2, q);
      } else {
        RegisterSendFine(h, c, w, arm2, own2, mark2, q);
      }
    } else if arm.offer.Some? {
      SetOfferWakerFine(h, arm.offer.value, w, arm2, own2, mark2, q);
    } else if core.closed {
      RefuseFine(h, arm.item.serial, me, arm2, own2, mark2, q);
    } else if arm.eager {
      var k := FindWaiter(h, core.waiters, mark);
      if k.Some? {
        QueuedWaiter(h, c, core.waiters[k.value]);
        FillFine(h, core.waiters[k.value], arm.item, me, arm2, own2, mark2, q);
      }
    } else {
      PostOfferFine(h, c, arm.item, me, mark, w, arm2, own2, mark2, q);
    }
  }

  lemma PollArmFine(h: Heap, arm: Arm, me: Owner, mark: Option<nat>, w: Waker,
                    arm2: Arm, own2: Owner, mark2: Option<nat>, q: bool)
    requires Structure(h) && ArmOk(h, arm, me, mark)
    requires Fine(h, arm2, own2, mark2, q) && own2 != me
    ensures Fine(PollArm(h, arm, me, mark, w).h, arm2, own2, mark2, q)
  {
    hide Fine, Structure, Held, PollRendezvous, PollSend, PopFront;
    match arm
    case Recv(c, _) =>
      if h.chans[c].cap != 0 {
        if h.chans[c].buf != [] { PopFrontFine(h, c, arm2, own2, mark2, q); }
        else { RegisterRecvFine(h, c, w, arm2, own2, mark2, q); }
      } else {
        PollRendezvousFine(h, arm, me, mark, w, arm2, own2, mark2, q);
      }
    case Send(_, _, _, _) => PollSendFine(h, arm, me, mark, w, arm2, own2, mark2, q);
    case Other(_) =>
  }

  lemma WithdrawArmFine(h: Heap, arm: Arm, me: Owner, mark: Option<nat>,
                        arm2: Arm, own2: Owner, mark2: Option<nat>, q: bool)
    requires Structure(h) && ArmOk(h, arm, me, mark)
    requires Fine(h, arm2, own2, mark2, q) && own2 != me
    ensures Fine(WithdrawArm(h, arm).0, arm2, own2, mark2, q)
  {
    hide Fine, Structure, Held, PushFront;
    match arm
    case Recv(c, w) =>
      if w.Some? {
        var slot := h.waiters[w.value].slot;
        TakeSlotStructure(h, w.value);
        TakeSlotFine(h, w.value, arm2, own2, mark2, q);
        ForgetStructure(TakeSlot(h, w.value), c, w);
        ForgetFine(TakeSlot(h, w.value), c, w, arm2, own2, mark2, q);
        if slot.Some? { PushFrontFine(Forget(TakeSlot(h, w.value), c, w), c, slot.value, arm2, own2, mark2, q); }
      }
    case Send(c, item, o, _) =>
      if o.None? { RefuseFine(h, item.serial, me, arm2, own2, mark2, q); }
      else if h.offers[o.value].state == Open {
        OpenQueued(h, o.value);
        WithdrawOfferFine(h, c, o.value, arm2, own2, mark2, q);
      }
    case Other(_) =>
  }

  lemma OpenQueued(h: Heap, o: nat)
    requires Structure(h) && o < |h.offers| && h.offers[o].state == Open
    ensures h.offers[o].chan < |h.chans| && o in h.chans[h.offers[o].chan].offers
  {
    assert OfferOk(h, o);
  }

  // ---- the case itself ----------------------------------------------------

  /** Nothing open or queued belongs to `me`. */
  ghost predicate Released(h: Heap, me: Owner) {
    && (forall o :: 0 <= o < |h.offers| && h.offers[o].owner == me ==> h.offers[o].state != Open)
    && (forall w :: 0 <= w < |h.waiters| && h.waiters[w].owner == me ==> !Queued(h, w))
  }

  lemma ForgetReleases(h: Heap, arm: Arm, me: Owner, mark: Option<nat>)
    requires Structure(h) && ArmOk(h, arm, me, mark) && arm.Recv?
    ensures Released(Forget(h, arm.chan, arm.waiter), me)
  {}

  lemma TakeSlotSelf(h: Heap, arm: Arm, me: Owner, mark: Option<nat>)
    requires Structure(h) && ArmOk(h, arm, me, mark) && arm.Recv? && arm.waiter.Some?
    ensures ArmOk(TakeSlot(h, arm.waiter.value), arm, me, mark)
  {}

  /** A receive case that is done leaves nothing behind. */
  lemma RendezvousDone(h: Heap, arm: Arm, me: Owner, mark: Option<nat>, w: Waker)
    requires Structure(h) && ArmOk(h, arm, me, mark) && arm.Recv? && h.chans[arm.chan].cap == 0
    requires !PollRendezvous(h, arm, me, mark, w).out.Pending?
    ensures Released(PollRendezvous(h, arm, me, mark, w).h, me)
  {
    var c := arm.chan;
    var core := h.chans[c];
    if arm.waiter.Some? && h.waiters[arm.waiter.value].slot.Some? {
      TakeSlotStructure(h, arm.waiter.value);
      TakeSlotSelf(h, arm, me, mark);
      ForgetReleases(TakeSlot(h, arm.waiter.value), arm, me, mark);
    } else if core.buf != [] {
      PopFrontStructure(h, c);
      PopFrontFine(h, c, arm, me, mark, false);
      ForgetReleases(PopFront(h, c), arm, me, mark);
    } else {
      var k := FindOffer(h, core.offers, mark);
      if k.Some? {
        TakeOfferStructure(h, c, core.offers[k.value], mark);
        TakeOfferFine(h, c, core.offers[k.value], mark, arm, me, mark, false);
        ForgetReleases(TakeOffer(h, c, core.offers[k.value]), arm, me, mark);
      } else {
        ForgetReleases(h, arm, me, mark);
      }
    }
  }

  /** A receive case that waits is quiet. */
  lemma RendezvousWaits(h: Heap, arm: Arm, me: Owner, mark: Option<nat>, w: Waker)
    requires Structure(h) && ArmOk(h, arm, me, mark) && arm.Recv? && h.chans[arm.chan].cap == 0
    requires PollRendezvous(h, arm, me, mark, w).out.Pending?
    ensures var s := PollRendezvous(h, arm, me, mark, w);
            && ArmOk(s.h, s.arm, me, mark)
            && (w == Wake(me.task) ==> Quiet(s.h, s.arm, me.task, mark))
  {
    hide OfferOk, OffersApart;
    if arm.waiter.None? { PostWaiterSelf(h, arm, me, mark, w); }
  }

  lemma PostWaiterSelf(h: Heap, arm: Arm, me: Owner, mark: Option<nat>, w: Waker)
    requires Structure(h) && ArmOk(h, arm, me, mark) && arm.Recv? && arm.waiter.None?
    ensures ArmOk(PostWaiter(h, arm.chan, me, mark, w), arm.(waiter := Some(|h.waiters|)), me, mark)
  {
    hide OfferOk, OffersApart;
  }

  lemma BufferedSelf(h: Heap, arm: Arm, me: Owner, mark: Option<nat>, w: Waker)
    requires Structure(h) && ArmOk(h, arm, me, mark) && arm.Recv? && h.chans[arm.chan].cap != 0
    ensures var s := PollBuffered(h, arm, w);
            && ArmOk(s.h, s.arm, me, mark)
            && (s.out.Pending? && w == Wake(me.task) ==> Quiet(s.h, s.arm, me.task, mark))
  {
    if h.chans[arm.chan].buf != [] { PopFrontFine(h, arm.chan, arm, me, mark, false); }
    else { RegisterRecvFine(h, arm.chan, w, arm, me, mark, false); }
  }

  lemma PostOfferSelf(h: Heap, arm: Arm, me: Owner, mark: Option<nat>, w: Waker)
    requires Structure(h) && ArmOk(h, arm, me, mark) && arm.Send? && arm.offer.None?
    requires h.chans[arm.chan].cap == 0 && !h.chans[arm.chan].closed
    ensures var h1 := PostOffer(h, arm.chan, arm.item, me, mark, w);
            var arm1 := arm.(offer := Some(|h.offers|));
            && ArmOk(h1, arm1, me, mark)
            && (w == Wake(me.task) ==> Quiet(h1, arm1, me.task, mark))
  {}

  /** A send case that waits is quiet; an eager one that found no receiver posts nothing. */
  lemma SendWaits(h: Heap, arm: Arm, me: Owner, mark: Option<nat>, w: Waker)
    requires Structure(h) && ArmOk(h, arm, me, mark) && arm.Send?
    requires PollSend(h, arm, me, mark, w).out.Pending?
    ensures var s := PollSend(h, arm, me, mark, w);
            && ArmOk(s.h, s.arm, me, mark)
            && (w == Wake(me.task) && !arm.eager ==> Quiet(s.h, s.arm, me.task, mark))
  {
    var core := h.chans[arm.chan];
    if core.cap != 0 {
      RegisterSendFine(h, arm.chan, w, arm, me, mark, false);
    } else if arm.offer.None? && !arm.eager {
      PostOfferSelf(h, arm, me, mark, w);
    }
  }

  lemma SendDone(h: Heap, arm: Arm, me: Owner, mark: Option<nat>, w: Waker)
    requires Structure(h) && ArmOk(h, arm, me, mark) && arm.Send?
    requires !PollSend(h, arm, me, mark, w).out.Pending?
    ensures Released(PollSend(h, arm, me, mark, w).h, me)
  {
    hide WaiterOk, OffersApart, TasksOf;
  }

  lemma WithdrawSelf(h: Heap, arm: Arm, me: Owner, mark: Option<nat>)
    requires Structure(h) && ArmOk(h, arm, me, mark)
    ensures Released(WithdrawArm(h, arm).0, me)
  {
    match arm
    case Recv(_, _) => WithdrawRecvSelf(h, arm, me, mark);
    case Send(_, _, _, _) => WithdrawSendSelf(h, arm, me, mark);
    case Other(_) =>
  }

  lemma WithdrawSendSelf(h: Heap, arm: Arm, me: Owner, mark: Option<nat>)
    requires Structure(h) && ArmOk(h, arm, me, mark) && arm.Send?
    ensures Released(WithdrawSend(h, arm).0, me)
  {
    hide WaitersOk, OffersApart;
  }

  lemma WithdrawRecvSelf(h: Heap, arm: Arm, me: Owner, mark: Option<nat>)
    requires Structure(h) && ArmOk(h, arm, me, mark) && arm.Recv?
    ensures Released(WithdrawRecv(h, arm).0, me)
  {
    hide Structure;
    if arm.waiter.Some? {
      TakeSlotStructure(h, arm.waiter.value);
      TakeSlotSelf(h, arm, me, mark);
      ForgetReleases(TakeSlot(h, arm.waiter.value), arm, me, mark);
    }
  }

  /** Polling one case: while it waits its records agree and it is quiet; once done it left none. */
  lemma PollArmSelf(h: Heap, arm: Arm, me: Owner, mark: Option<nat>, w: Waker)
    requires Structure(h) && ArmOk(h, arm, me, mark)
    ensures var s := PollArm(h, arm, me, mark, w);
            if s.out.Pending? then
              && ArmOk(s.h, s.arm, me, mark)
              && (w == Wake(me.task) && !(arm.Send? && arm.eager) ==> Quiet(s.h, s.arm, me.task, mark))
            else Released(s.h, me)
  {
    var s := PollArm(h, arm, me, mark, w);
    match arm
    case Recv(c, _) =>
      if h.chans[c].cap != 0 { BufferedSelf(h, arm, me, mark, w); }
      else if s.out.Pending? { RendezvousWaits(h, arm, me, mark, w); }
      else { RendezvousDone(h, arm, me, mark, w); }
    case Send(_, _, _, _) =>
      if s.out.Pending? { SendWaits(h, arm, me, mark, w); } else { SendDone(h, arm, me, mark, w); }
    case Other(_) =>
  }
}
