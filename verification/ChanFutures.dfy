/** Receives and sends in progress: the futures that a plain wait or a select polls. */
module ChanFutures {
  import opened Basics
  import opened ChanSpec
  import opened Channels
  import S = ChanSpec

  /** A receive in progress.  `arm` is its abstract case. */
  class Receiving {
    const chan: ChanCore
    const select: SelectMark?
    var waiter: Waiter?
    ghost var arm: Arm

    constructor (chan: ChanCore, select: SelectMark?)
      ensures this.chan == chan && this.select == select && waiter == null && arm == Recv(chan.id, None)
    {
      this.chan, this.select, waiter := chan, select, null;
      arm := Recv(chan.id, None);
    }

    ghost predicate Valid(vm: Vm, mark: Option<nat>)
      reads this, vm`chans, vm`waiters, vm`marks
    {
      && arm.Recv? && vm.Has(chan) && arm.chan == chan.id && vm.MarkIs(select, mark)
      && (if waiter == null then arm.waiter.None? else vm.HasWaiter(waiter) && arm.waiter == Some(waiter.id))
    }

    /** Leave the queue, if the receive is in it (`forget`). */
    method Forget(vm: Vm, ghost mark: Option<nat>)
      requires vm.Valid() && Valid(vm, mark)
      modifies this, chan`waiters, vm`h
      ensures vm.Valid() && Valid(vm, mark) && chan.id < |old(vm.h).chans|
      ensures arm == old(arm).(waiter := None) && vm.h == S.Forget(old(vm.h), chan.id, old(arm).waiter)
    {
      hide Vm.Valid, Vm.ChanIs, S.Forget;
      ChanAt(vm, chan);
      ForgetNone(vm.h, chan.id);
      if waiter != null {
        chan.RemoveWaiter(vm, waiter);
        waiter := null;
        arm := arm.(waiter := None);
      }
    }

    /** Take a value, or wait for one (`Receiving::poll`). */
    method Poll(vm: Vm, w: Waker, ghost own: Owner, ghost mark: Option<nat>) returns (out: Out)
      requires vm.Valid() && Valid(vm, mark)
      modifies this, vm, vm.chans, vm.offers, vm.waiters, vm.marks
      ensures vm.Valid() && Valid(vm, mark) && vm.MoreObjects()
      ensures ArmRefs(old(vm.h), old(arm))
      ensures ArmStep(vm.h, arm, out) == S.PollArm(old(vm.h), old(arm), own, mark, w)
    {
      hide Vm.Valid, Vm.OffersAre, Vm.WaitersAre, NoDup, S.PollBuffered, S.PollRendezvous;
      ChanAt(vm, chan);
      if waiter != null { WaiterAgrees(vm, waiter); }
      if chan.cap != 0 {
        out := chan.PollRecv(vm, w, arm);
      } else {
        out := PollRendezvous(vm, w, own, mark);
      }
    }

    /** On a rendezvous channel: a value in the slot, one given back, an offer, the close, or wait. */
    method PollRendezvous(vm: Vm, w: Waker, ghost own: Owner, ghost mark: Option<nat>) returns (out: Out)
      requires vm.Valid() && Valid(vm, mark) && chan.cap == 0
      modifies this, vm, vm.chans, vm.offers, vm.waiters, vm.marks
      ensures vm.Valid() && Valid(vm, mark) && vm.MoreObjects()
      ensures ArmRefs(old(vm.h), old(arm))
      ensures ArmStep(vm.h, arm, out) == S.PollRendezvous(old(vm.h), old(arm), own, mark, w)
    {
      hide Vm.Valid, Vm.OffersAre, Vm.WaitersAre, NoDup, S.Forget, S.PopFront, S.TakeSlot, S.PollRendezvous;
      ChanAt(vm, chan);
      if waiter != null { WaiterAgrees(vm, waiter); }
      SomethingHeld(vm.h, arm, own, mark, w);
      if waiter != null {
        TakeNoSlot(vm.h, waiter.id);
        var filled := waiter.TakeSlot(vm);
        if filled.Some? {
          vm.HandOver(filled.value);
          Forget(vm, mark);
          return Received(filled.value);
        }
        ChanAt(vm, chan);
      }
      if chan.buf != [] {
        var item := chan.PopReturned(vm);
        Forget(vm, mark);
        return Received(item);
      }
      out := PollOffers(vm, w, own, mark);
    }

    /** With nothing held for this receive: take an offer, see the close, or wait. */
    method PollOffers(vm: Vm, w: Waker, ghost own: Owner, ghost mark: Option<nat>) returns (out: Out)
      requires vm.Valid() && Valid(vm, mark) && chan.cap == 0 && chan.buf == []
      requires waiter != null ==> waiter.slot.None?
      modifies this, vm, vm.chans, vm.offers, vm.waiters, vm.marks
      ensures vm.Valid() && Valid(vm, mark) && vm.MoreObjects()
      ensures ArmRefs(old(vm.h), old(arm))
      ensures ArmStep(vm.h, arm, out) == S.PollRendezvous(old(vm.h), old(arm), own, mark, w)
    {
      hide Vm.Valid, Vm.OffersAre, Vm.WaitersAre, NoDup, S.Forget, S.TakeOffer, S.WakeAll, S.Eligible, S.PostWaiter;
      hide S.PollRendezvous;
      ChanAt(vm, chan);
      if waiter != null { WaiterAgrees(vm, waiter); }
      NothingHeld(vm.h, arm, own, mark, w);
      var got := chan.TakeOffer(vm, select, mark);
      if got.Some? {
        ForgetAndWake(vm, got.value.1, mark);
        return Received(got.value.0);
      }
      if chan.closed {
        Forget(vm, mark);
        return RecvClosed;
      }
      Wait(vm, w, own, mark);
      return Pending;
    }

    /** Leave the queue and wake the sender. */
    method ForgetAndWake(vm: Vm, waker: Waker, ghost mark: Option<nat>)
      requires vm.Valid() && Valid(vm, mark)
      modifies this, chan`waiters, vm`h, vm`woken
      ensures vm.Valid() && Valid(vm, mark) && chan.id < |old(vm.h).chans| == |S.WakeAll(old(vm.h), [waker]).chans|
      ensures arm == old(arm).(waiter := None)
      ensures vm.h == S.Forget(S.WakeAll(old(vm.h), [waker]), chan.id, old(arm).waiter)
    {
      ChanAt(vm, chan);
      ForgetThenWake(vm.h, chan.id, arm.waiter, [waker]);
      hide Vm.Valid, S.Forget, S.WakeAll;
      Forget(vm, mark);
      vm.Wake([waker]);
    }

    /** Wait in the queue. */
    method Wait(vm: Vm, w: Waker, ghost own: Owner, ghost mark: Option<nat>)
      requires vm.Valid() && Valid(vm, mark)
      modifies this, vm, chan, vm.waiters
      ensures vm.Valid() && Valid(vm, mark) && vm.MoreObjects()
      ensures ArmRefs(old(vm.h), old(arm))
      ensures old(arm).waiter.Some? ==>
        && arm == old(arm)
        && vm.h == old(vm.h).(waiters := old(vm.h).waiters[arm.waiter.value :=
             old(vm.h).waiters[arm.waiter.value].(waker := w)])
      ensures old(arm).waiter.None? ==>
        && arm == old(arm).(waiter := Some(|old(vm.h).waiters|))
        && vm.h == S.PostWaiter(old(vm.h), chan.id, own, mark, w)
    {
      hide Vm.Valid, Vm.OffersAre, Vm.WaitersAre, NoDup, S.PostWaiter;
      ChanAt(vm, chan);
      if waiter != null {
        waiter.SetWaker(vm, w);
      } else {
        waiter := chan.PushWaiter(vm, w, select, own, mark);
        arm := arm.(waiter := Some(waiter.id));
      }
    }

    /** Leave the queue. A filled slot is emptied: its value returns to where the next receive looks first. */
    method Withdraw(vm: Vm, ghost mark: Option<nat>)
      requires vm.Valid() && Valid(vm, mark)
      modifies this, vm, vm.chans, vm.waiters
      ensures vm.Valid() && Valid(vm, mark) && vm.SameObjects() && waiter == null
      ensures ArmRefs(old(vm.h), old(arm)) && (vm.h, arm) == S.WithdrawArm(old(vm.h), old(arm))
    {
      hide Vm.Valid, Vm.OffersAre, Vm.WaitersAre, NoDup, S.Forget, S.PushFront, S.TakeSlot;
      ChanAt(vm, chan);
      if waiter == null { return; }
      WaiterAgrees(vm, waiter);
      ForgetTakeSlot(vm.h, chan.id, waiter.id);
      var w := waiter;
      Forget(vm, mark);
      var filled := w.TakeSlot(vm);
      if filled.Some? { chan.PutFront(vm, filled.value); }
    }
  }

  /** A send in progress.  `arm` is its abstract case. */
  class Sending {
    const chan: ChanCore
    const select: SelectMark?
    /** What is to be sent, as long as this send still owns it. */
    var value: Option<Item>
    var offer: Offer?
    var eager: bool
    ghost var arm: Arm

    constructor (chan: ChanCore, item: Item, select: SelectMark?)
      ensures this.chan == chan && this.select == select && value == Some(item) && offer == null && !eager
      ensures arm == Send(chan.id, item, None, false)
    {
      this.chan, this.select, value, offer, eager := chan, select, Some(item), null, false;
      arm := Send(chan.id, item, None, false);
    }

    /** The send and its abstract case name the same objects. */
    ghost predicate Refs(vm: Vm, mark: Option<nat>)
      reads this, vm`chans, vm`offers, vm`marks
    {
      && arm.Send? && vm.Has(chan) && arm.chan == chan.id && vm.MarkIs(select, mark) && arm.eager == eager
      && (if offer == null then arm.offer.None?
          else chan.cap == 0 && vm.HasOffer(offer) && arm.offer == Some(offer.id))
    }

    /** ... and the value is still here if it was not posted. */
    ghost predicate Valid(vm: Vm, mark: Option<nat>)
      reads this, vm`chans, vm`offers, vm`marks
    {
      Refs(vm, mark) && (offer == null ==> value == Some(arm.item))
    }

    /** From now on a poll posts no offer (`set_eager`). */
    method SetEager(vm: Vm, ghost mark: Option<nat>)
      requires Valid(vm, mark)
      modifies this`eager, this`arm
      ensures Valid(vm, mark) && arm == old(arm).(eager := true)
    {
      eager := true;
      arm := arm.(eager := true);
    }

    /** Send the value, or wait until it can be sent (`Sending::poll_local`). */
    method Poll(vm: Vm, w: Waker, ghost own: Owner, ghost mark: Option<nat>) returns (out: Out)
      requires vm.Valid() && Valid(vm, mark)
      modifies this, vm, vm.chans, vm.offers, vm.waiters
      ensures vm.Valid() && Refs(vm, mark) && vm.MoreObjects()
      ensures out.Sent? || Valid(vm, mark)
      ensures ArmRefs(old(vm.h), old(arm))
      ensures ArmStep(vm.h, arm, out) == S.PollArm(old(vm.h), old(arm), own, mark, w)
    {
      hide Vm.Valid, Vm.OffersAre, Vm.WaitersAre, NoDup, S.PollSend;
      ChanAt(vm, chan);
      if offer != null { OfferAgrees(vm, offer); }
      if chan.cap != 0 {
        value, out := chan.PollSend(vm, w, value, arm, own, mark);
      } else if offer != null {
        out := PollOffer(vm, w, own, mark);
      } else {
        out := Start(vm, w, own, mark);
      }
    }

    /** The offer is posted: see what became of it. */
    method PollOffer(vm: Vm, w: Waker, ghost own: Owner, ghost mark: Option<nat>) returns (out: Out)
      requires vm.Valid() && Valid(vm, mark) && offer != null
      modifies vm`h, offer`waker
      ensures vm.Valid() && Valid(vm, mark)
      ensures ArmRefs(old(vm.h), arm)
      ensures ArmStep(vm.h, arm, out) == S.PollSend(old(vm.h), arm, own, mark, w)
    {
      hide Vm.Valid, Vm.OffersAre, Vm.WaitersAre, NoDup;
      ChanAt(vm, chan);
      OfferAgrees(vm, offer);
      match offer.state
      case Taken => out := Sent;
      case Withdrawn => out := SendClosed;
      case Open =>
        offer.SetWaker(vm, w);
        out := Pending;
    }

    /** The first poll on a rendezvous channel: the close, a waiter to fill, or an offer of its own. */
    method Start(vm: Vm, w: Waker, ghost own: Owner, ghost mark: Option<nat>) returns (out: Out)
      requires vm.Valid() && Valid(vm, mark) && offer == null && chan.cap == 0
      modifies this, vm, chan, vm.waiters
      ensures vm.Valid() && Refs(vm, mark) && vm.MoreObjects()
      ensures out.Sent? || Valid(vm, mark)
      ensures ArmRefs(old(vm.h), old(arm))
      ensures ArmStep(vm.h, arm, out) == S.PollSend(old(vm.h), old(arm), own, mark, w)
    {
      hide Vm.Valid, Vm.OffersAre, Vm.WaitersAre, NoDup, S.Fill, S.WakeAll, S.PostOffer, S.Fillable;
      ChanAt(vm, chan);
      if chan.closed {
        vm.Refuse(arm.item.serial);
        return SendClosed;
      }
      if eager {
        var item := value.value;
        value := None;
        var waker := chan.FillWaiter(vm, item, select, mark);
        if waker.None? {
          value := Some(item);
          return Pending;
        }
        vm.Wake([waker.value]);
        return Sent;
      }
      Post(vm, w, own, mark);
      return Pending;
    }

    /** Post the value as an offer and wake the waiting receivers. */
    method Post(vm: Vm, w: Waker, ghost own: Owner, ghost mark: Option<nat>)
      requires vm.Valid() && Valid(vm, mark) && offer == null && chan.cap == 0
      modifies this, vm, chan
      ensures vm.Valid() && Valid(vm, mark) && vm.MoreObjects()
      ensures arm == old(arm).(offer := Some(|old(vm.h).offers|)) && chan.id < |old(vm.h).chans|
      ensures vm.h == S.PostOffer(old(vm.h), chan.id, arm.item, own, mark, w)
    {
      hide Vm.Valid, Vm.OffersAre, Vm.WaitersAre, NoDup, S.ReceiverWakers, S.WakeAll;
      ChanAt(vm, chan);
      offer := chan.PushOffer(vm, value.value, w, select, own, mark);
      value := None;
      arm := arm.(offer := Some(offer.id));
      var wakers := chan.ReceiverWakers(vm);
      vm.Wake(wakers);
    }

    /** Whether a receiver took the offer (`delivered`). */
    method Delivered(vm: Vm, ghost mark: Option<nat>) returns (r: bool)
      requires vm.Valid() && Refs(vm, mark)
      ensures r == S.Delivered(vm.h, arm)
    {
      hide Vm.Valid;
      if offer != null { OfferAgrees(vm, offer); }
      return offer != null && offer.state == Taken;
    }

    /** End the send: its offer is withdrawn if nobody took it. */
    method Withdraw(vm: Vm, ghost mark: Option<nat>)
      requires vm.Valid() && Refs(vm, mark)
      modifies this, vm`h, chan`offers, vm.offers
      ensures vm.Valid() && Refs(vm, mark) && ArmRefs(old(vm.h), old(arm))
      ensures (vm.h, arm) == S.WithdrawArm(old(vm.h), old(arm))
    {
      hide Vm.Valid, Vm.OffersAre, Vm.WaitersAre, NoDup, S.WithdrawOffer, S.Refuse;
      ChanAt(vm, chan);
      if offer == null {
        vm.Refuse(arm.item.serial);
        return;
      }
      OfferAgrees(vm, offer);
      if offer.state != Open { return; }
      RemovePosted(vm, offer);
      offer := null;
      arm := arm.(offer := None);
    }

    method RemovePosted(vm: Vm, posted: Offer)
      requires vm.Valid() && vm.Has(chan) && vm.HasOffer(posted)
      modifies vm`h, chan`offers, posted`state
      ensures vm.Valid() && chan.id < |old(vm.h).chans| && posted.id < |old(vm.h).offers|
      ensures vm.h == S.WithdrawOffer(old(vm.h), chan.id, posted.id)
    {
      hide Vm.Valid, NoDup;
      ChanAt(vm, chan);
      posted.MarkWithdrawn(vm);
      chan.RemoveOffer(vm, posted);
    }
  }

  /** A receive whose slot is filled, or that finds a value given back. */
  lemma SomethingHeld(h: Heap, arm: Arm, own: Owner, mark: Option<nat>, w: Waker)
    requires arm.Recv? && ArmRefs(h, arm)
    ensures var c, done := arm.chan, arm.(waiter := None);
      if arm.waiter.Some? && h.waiters[arm.waiter.value].slot.Some? then
        var item := h.waiters[arm.waiter.value].slot.value;
        S.PollRendezvous(h, arm, own, mark, w) ==
          ArmStep(S.Forget(S.Hand(S.TakeSlot(h, arm.waiter.value), item), c, arm.waiter), done, Received(item))
      else h.chans[c].buf != [] ==>
        S.PollRendezvous(h, arm, own, mark, w) ==
          ArmStep(S.Forget(S.PopFront(h, c), c, arm.waiter), done, Received(h.chans[c].buf[0]))
  {
  }

  /** A receive with an empty slot on an empty buffer. */
  lemma NothingHeld(h: Heap, arm: Arm, own: Owner, mark: Option<nat>, w: Waker)
    requires arm.Recv? && ArmRefs(h, arm) && h.chans[arm.chan].buf == []
    requires arm.waiter.Some? ==> h.waiters[arm.waiter.value].slot.None?
    ensures var c, done := arm.chan, arm.(waiter := None);
      var k := S.FindOffer(h, h.chans[c].offers, mark);
      S.PollRendezvous(h, arm, own, mark, w) ==
        if k.Some? then
          var o := h.chans[c].offers[k.value];
          ArmStep(S.Forget(S.TakeOffer(h, c, o), c, arm.waiter), done, Received(h.offers[o].item))
        else if h.chans[c].closed then ArmStep(S.Forget(h, c, arm.waiter), done, RecvClosed)
        else if arm.waiter.Some? then
          ArmStep(h.(waiters := h.waiters[arm.waiter.value := h.waiters[arm.waiter.value].(waker := w)]), arm, Pending)
        else ArmStep(S.PostWaiter(h, c, own, mark, w), arm.(waiter := Some(|h.waiters|)), Pending)
  {
  }

  lemma ForgetNone(h: Heap, c: nat)
    requires c < |h.chans|
    ensures S.Forget(h, c, None) == h
  {
  }

  lemma TakeNoSlot(h: Heap, w: nat)
    requires w < |h.waiters|
    ensures h.waiters[w].slot.None? ==> S.TakeSlot(h, w) == h
  {
    assert h.waiters[w := h.waiters[w]] == h.waiters;
  }

  lemma ForgetThenWake(h: Heap, c: nat, w: Option<nat>, wakers: seq<Waker>)
    requires c < |h.chans|
    ensures S.WakeAll(S.Forget(h, c, w), wakers) == S.Forget(S.WakeAll(h, wakers), c, w)
  {
  }

  lemma ForgetTakeSlot(h: Heap, c: nat, w: nat)
    requires c < |h.chans| && w < |h.waiters|
    ensures S.TakeSlot(S.Forget(h, c, Some(w)), w) == S.Forget(S.TakeSlot(h, w), c, Some(w))
    ensures S.Forget(h, c, Some(w)).waiters == h.waiters
  {
  }
}
