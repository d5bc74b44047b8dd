/**
 Local channels as the program runs them: channels, offers, waiters and
 marks are objects that their holders share and change in place.

 `Vm` stands for the thread that runs them.  Its ghost fields list every
 object and hold the abstract heap `h`; `Valid` ties the two together, and
 each method is proved to do to `h` what its operation in `ChanSpec` does.
 */
module Channels {
  import opened Basics
  import opened ChanSpec
  import S = ChanSpec

  /** The mark of one select, shared by its offers and waiters. */
  class SelectMark {
    ghost const id: nat
    var claimed: bool

    constructor (ghost id: nat)
      ensures this.id == id && !claimed
    {
      this.id := id;
      claimed := false;
    }

    /** The select has its case. */
    method Claim(vm: Vm)
      requires vm.Valid() && id < |vm.marks| && vm.marks[id] == this
      modifies this`claimed, vm`h
      ensures vm.Valid() && vm.h == S.Claim(old(vm.h), Some(id))
    {
      hide Vm.ChansValid, Vm.OffersValid, Vm.WaitersValid;
      claimed := true;
      vm.h := S.Claim(vm.h, Some(id));
    }
  }

  /** A value in the queue of a channel without a buffer, with the sender's waker. */
  class Offer {
    ghost const id: nat
    var value: Option<Item>
    var state: OfferState
    var waker: Waker
    const select: SelectMark?

    constructor (ghost id: nat, item: Item, waker: Waker, select: SelectMark?)
      ensures this.id == id && value == Some(item) && state == Open
      ensures this.waker == waker && this.select == select
    {
      this.id, value, state := id, Some(item), Open;
      this.waker, this.select := waker, select;
    }

    /** Wake `w` from now on. */
    method SetWaker(vm: Vm, w: Waker)
      requires vm.Valid() && vm.HasOffer(this)
      modifies this`waker, vm`h
      ensures vm.Valid() && id < |old(vm.h).offers|
      ensures vm.h == old(vm.h).(offers := old(vm.h).offers[id := old(vm.h).offers[id].(waker := w)])
    {
      hide Vm.ChansValid, Vm.WaitersValid, Vm.MarksValid;
      if waker != w { waker := w; }
      vm.h := vm.h.(offers := vm.h.offers[id := vm.h.offers[id].(waker := w)]);
    }

    /** Mark the offer withdrawn: its send is refused. */
    method MarkWithdrawn(vm: Vm)
      requires vm.Valid() && vm.HasOffer(this)
      modifies this`state, vm`h
      ensures vm.Valid() && id < |old(vm.h).offers|
      ensures var rec := old(vm.h).offers[id];
        vm.h == S.Refuse(old(vm.h).(offers := old(vm.h).offers[id := rec.(state := Withdrawn)]), rec.item.serial)
    {
      hide Vm.ChansValid, Vm.WaitersValid, Vm.MarksValid;
      state := Withdrawn;
      ghost var rec := vm.h.offers[id];
      vm.h := S.Refuse(vm.h.(offers := vm.h.offers[id := rec.(state := Withdrawn)]), rec.item.serial);
    }

    /** Mark the offer taken, claim its select and take its value. */
    method Take(vm: Vm) returns (item: Item)
      requires vm.Valid() && vm.HasOffer(this) && state == Open
      modifies this`state, this`value, if select == null then {} else {select}, vm`h
      ensures vm.Valid()
      ensures var rec := old(vm.h).offers[id];
        && item == rec.item && rec.waker == waker
        && var claimed := Claim(old(vm.h), rec.select);
           vm.h == claimed.(offers := claimed.offers[id := rec.(state := Taken)])
    {
      OfferAgrees(vm, this);
      hide Vm.Valid;
      item := value.value;
      SetTaken(vm);
      if select != null { select.Claim(vm); }
    }

    /** Mark the offer taken; its value is gone. */
    method SetTaken(vm: Vm)
      requires vm.Valid() && vm.HasOffer(this)
      modifies this`state, this`value, vm`h
      ensures vm.Valid() && id < |old(vm.h).offers|
      ensures vm.h == old(vm.h).(offers := old(vm.h).offers[id := old(vm.h).offers[id].(state := Taken)])
    {
      hide Vm.ChansValid, Vm.WaitersValid, Vm.MarksValid;
      state := Taken;
      value := None;
      vm.h := vm.h.(offers := vm.h.offers[id := vm.h.offers[id].(state := Taken)]);
    }
  }

  /** A receive in such a queue, with the slot that a send may fill. */
  class Waiter {
    ghost const id: nat
    var slot: Option<Item>
    var waker: Waker
    const select: SelectMark?

    constructor (ghost id: nat, waker: Waker, select: SelectMark?)
      ensures this.id == id && slot == None && this.waker == waker && this.select == select
    {
      this.id, slot := id, None;
      this.waker, this.select := waker, select;
    }

    /** Take what the slot holds. */
    method TakeSlot(vm: Vm) returns (filled: Option<Item>)
      requires vm.Valid() && vm.HasWaiter(this)
      modifies this`slot, vm`h
      ensures vm.Valid() && id < |old(vm.h).waiters| && filled == old(vm.h).waiters[id].slot && slot.None?
      ensures vm.h == S.TakeSlot(old(vm.h), id)
    {
      hide Vm.ChansValid, Vm.OffersValid, Vm.MarksValid;
      filled := slot;
      slot := None;
      vm.h := S.TakeSlot(vm.h, id);
    }

    /** Wake `w` from now on. */
    method SetWaker(vm: Vm, w: Waker)
      requires vm.Valid() && vm.HasWaiter(this)
      modifies this`waker, vm`h
      ensures vm.Valid() && id < |old(vm.h).waiters|
      ensures vm.h == old(vm.h).(waiters := old(vm.h).waiters[id := old(vm.h).waiters[id].(waker := w)])
    {
      hide Vm.ChansValid, Vm.OffersValid, Vm.MarksValid;
      if waker != w { waker := w; }
      vm.h := vm.h.(waiters := vm.h.waiters[id := vm.h.waiters[id].(waker := w)]);
    }

    /** Put `item` in the empty slot: its send is complete. */
    method Fill(vm: Vm, item: Item)
      requires vm.Valid() && vm.HasWaiter(this)
      modifies this`slot, vm`h
      ensures vm.Valid() && vm.h.woken == old(vm.h).woken
      ensures waker == old(vm.h).waiters[id].waker
      ensures S.WakeAll(vm.h, [waker]) == S.Fill(old(vm.h), id, item)
    {
      hide Vm.ChansValid, Vm.OffersValid, Vm.MarksValid, TasksOf;
      slot := Some(item);
      vm.h := Accept(vm.h.(waiters := vm.h.waiters[id := vm.h.waiters[id].(slot := Some(item))]), item);
    }
  }

  /** The thread: which tasks are scheduled, and (ghost) every object and the abstract heap. */
  class Vm {
    var woken: set<Task>
    ghost var h: Heap
    ghost var chans: seq<ChanCore>
    ghost var offers: seq<Offer>
    ghost var waiters: seq<Waiter>
    ghost var marks: seq<SelectMark>

    ghost predicate Has(c: ChanCore)
      reads this`chans
    {
      c.id < |chans| && chans[c.id] == c
    }

    ghost predicate HasOffer(o: Offer)
      reads this`offers
    {
      o.id < |offers| && offers[o.id] == o
    }

    ghost predicate HasWaiter(w: Waiter)
      reads this`waiters
    {
      w.id < |waiters| && waiters[w.id] == w
    }

    /** `mark` is the abstract name of `m`. */
    ghost predicate MarkIs(m: SelectMark?, mark: Option<nat>)
      reads this`marks
    {
      if m == null then mark.None? else mark == Some(m.id) && m.id < |marks| && marks[m.id] == m
    }

    ghost predicate OffersAre(objects: seq<Offer>, ids: seq<nat>)
      reads this`offers
    {
      && |objects| == |ids|
      && forall k {:trigger objects[k]} {:trigger ids[k]} :: 0 <= k < |ids| ==>
           ids[k] < |offers| && offers[ids[k]] == objects[k]
    }

    ghost predicate WaitersAre(objects: seq<Waiter>, ids: seq<nat>)
      reads this`waiters
    {
      && |objects| == |ids|
      && forall k {:trigger objects[k]} {:trigger ids[k]} :: 0 <= k < |ids| ==>
           ids[k] < |waiters| && waiters[ids[k]] == objects[k]
    }

    ghost predicate ChanIs(c: ChanCore, rec: ChanRec)
      reads this`offers, this`waiters, c
    {
      && c.buf == rec.buf && c.cap == rec.cap && c.closed == rec.closed
      && c.recvWakers == rec.recvWakers && c.sendWakers == rec.sendWakers
      && OffersAre(c.offers, rec.offers) && NoDup(rec.offers)
      && WaitersAre(c.waiters, rec.waiters) && NoDup(rec.waiters)
      && (rec.cap == 0 ==> rec.sendWakers == [])
    }

    ghost predicate OfferIs(o: Offer, rec: OfferRec)
      reads this`marks, o
    {
      && o.state == rec.state && o.waker == rec.waker && MarkIs(o.select, rec.select)
      && (o.state == Open ==> o.value == Some(rec.item))
    }

    ghost predicate WaiterIs(w: Waiter, rec: WaiterRec)
      reads this`marks, w
    {
      w.slot == rec.slot && w.waker == rec.waker && MarkIs(w.select, rec.select)
    }

    ghost predicate ChansValid(recs: seq<ChanRec>)
      reads this`chans, this`offers, this`waiters, chans
    {
      && |chans| == |recs|
      && forall i {:trigger chans[i]} :: 0 <= i < |chans| ==> chans[i].id == i && ChanIs(chans[i], recs[i])
    }

    ghost predicate OffersValid(recs: seq<OfferRec>)
      reads this`offers, this`marks, offers
    {
      && |offers| == |recs|
      && forall i {:trigger offers[i]} :: 0 <= i < |offers| ==> offers[i].id == i && OfferIs(offers[i], recs[i])
    }

    ghost predicate WaitersValid(recs: seq<WaiterRec>)
      reads this`waiters, this`marks, waiters
    {
      && |waiters| == |recs|
      && forall i {:trigger waiters[i]} :: 0 <= i < |waiters| ==> waiters[i].id == i && WaiterIs(waiters[i], recs[i])
    }

    ghost predicate MarksValid(recs: seq<MarkRec>)
      reads this`marks, marks
    {
      && |marks| == |recs|
      && forall i {:trigger marks[i]} :: 0 <= i < |marks| ==>
           marks[i].id == i && marks[i].claimed == recs[i].claimed
    }

    ghost predicate Valid()
      reads this, chans, offers, waiters, marks
    {
      && woken == h.woken
      && ChansValid(h.chans) && OffersValid(h.offers) && WaitersValid(h.waiters) && MarksValid(h.marks)
    }

    /** No object was added or removed. */
    twostate predicate SameObjects()
      reads this
    {
      chans == old(chans) && offers == old(offers) && waiters == old(waiters) && marks == old(marks)
    }

    /** Objects were at most added. */
    twostate predicate MoreObjects()
      reads this
    {
      && chans == old(chans) && marks == old(marks)
      && old(offers) <= offers && (forall i :: |old(offers)| <= i < |offers| ==> fresh(offers[i]))
      && old(waiters) <= waiters && (forall i :: |old(waiters)| <= i < |waiters| ==> fresh(waiters[i]))
    }

    /** `item` was accepted from its sender and handed to a receiver. */
    ghost method Record(item: Item)
      requires Valid()
      modifies this`h
      ensures Valid() && h == S.Hand(S.Accept(old(h), item), item)
    {
      h := S.Hand(S.Accept(h, item), item);
    }

    /** `item` was handed to a receiver. */
    ghost method HandOver(item: Item)
      requires Valid()
      modifies this`h
      ensures Valid() && h == S.Hand(old(h), item)
    {
      h := S.Hand(h, item);
    }

    /** A new send, in the given status. */
    ghost method AddSend(status: SendStatus)
      requires Valid()
      modifies this`h
      ensures Valid() && h == old(h).(sends := old(h).sends + [status])
    {
      h := h.(sends := h.sends + [status]);
    }

    /** The send `k` ended without its value being accepted. */
    ghost method Refuse(k: nat)
      requires Valid()
      modifies this`h
      ensures Valid() && h == S.Refuse(old(h), k)
    {
      h := S.Refuse(h, k);
    }

    /** A new channel (`with_cap`). */
    method NewChan(cap: nat) returns (c: ChanCore)
      requires Valid()
      modifies this`h, this`chans
      ensures Valid() && Has(c) && fresh(c) && chans == old(chans) + [c]
      ensures h == old(h).(chans := old(h).chans + [FreshChan(cap)])
    {
      hide OffersValid, WaitersValid, MarksValid;
      c := new ChanCore(|chans|, cap);
      chans := chans + [c];
      h := h.(chans := h.chans + [FreshChan(cap)]);
    }

    /** A new waiter, queued nowhere yet. */
    ghost method AddWaiter(waiter: Waiter, rec: WaiterRec)
      requires Valid() && waiter.id == |waiters| && WaiterIs(waiter, rec)
      modifies this`h, this`waiters
      ensures Valid() && waiters == old(waiters) + [waiter] && waiter.id == |old(h).waiters|
      ensures h == old(h).(waiters := old(h).waiters + [rec])
    {
      hide OffersValid, MarksValid, OffersAre;
      waiters := waiters + [waiter];
      h := h.(waiters := h.waiters + [rec]);
    }

    /** A new offer, queued nowhere yet. */
    ghost method AddOffer(offer: Offer, rec: OfferRec)
      requires Valid() && offer.id == |offers| && OfferIs(offer, rec)
      modifies this`h, this`offers
      ensures Valid() && offers == old(offers) + [offer] && offer.id == |old(h).offers|
      ensures h == old(h).(offers := old(h).offers + [rec])
    {
      hide WaitersValid, MarksValid, WaitersAre;
      offers := offers + [offer];
      h := h.(offers := h.offers + [rec]);
    }

    /** Mark the offers `objects` withdrawn; their senders' wakers. */
    method MarkWithdrawn(objects: seq<Offer>, ghost ids: seq<nat>) returns (wakers: seq<Waker>)
      requires Valid() && OffersAre(objects, ids)
      modifies objects
      ensures wakers == OfferWakers(h, ids)
      ensures forall i {:trigger offers[i]} :: 0 <= i < |offers| ==>
        && i < |h.offers| && offers[i].waker == h.offers[i].waker && offers[i].value == old(offers[i].value)
        && offers[i].state == if i in ids then Withdrawn else h.offers[i].state
    {
      hide ChansValid, WaitersValid, MarksValid, OfferWakers;
      wakers := [];
      var k := 0;
      while k < |objects|
        modifies objects
        invariant k <= |objects| && wakers + OfferWakers(h, ids[k..]) == OfferWakers(h, ids)
        invariant forall i {:trigger offers[i]} :: 0 <= i < |offers| ==>
          && offers[i].waker == h.offers[i].waker && offers[i].value == old(offers[i].value)
          && offers[i].state == if i in ids[..k] then Withdrawn else h.offers[i].state
      {
        assert offers[ids[k]] == objects[k];
        SenderWakersFrom(h, ids, k, wakers);
        objects[k].state := Withdrawn;
        wakers := wakers + [objects[k].waker];
        assert ids[..k + 1] == ids[..k] + [ids[k]];
        k := k + 1;
      }
      assert ids[..k] == ids && ids[k..] == [];
      NoSenderWakers(h);
    }

    /** Withdraw the offers `objects`, taken off their channel's queue; their senders' wakers. */
    method WithdrawOffers(objects: seq<Offer>, ghost ids: seq<nat>) returns (wakers: seq<Waker>)
      requires Valid() && OffersAre(objects, ids)
      modifies objects, this`h
      ensures Valid()
      ensures h == old(h).(offers := WithdrawEach(old(h).offers, ids),
                           sends := RefuseEach(old(h).sends, SerialsOf(old(h).offers, ids)))
      ensures wakers == OfferWakers(old(h), ids)
    {
      hide ChansValid, WaitersValid, MarksValid, OfferWakers, SerialsOf;
      wakers := MarkWithdrawn(objects, ids);
      h := h.(offers := WithdrawEach(h.offers, ids), sends := RefuseEach(h.sends, SerialsOf(h.offers, ids)));
    }

    /** Wake the tasks of `wakers` (`wake_all`). */
    method Wake(wakers: seq<Waker>)
      requires Valid()
      modifies this`woken, this`h
      ensures Valid() && h == S.WakeAll(old(h), wakers)
    {
      hide ChansValid, OffersValid, WaitersValid, MarksValid;
      var k := 0;
      while k < |wakers|
        invariant k <= |wakers| && woken == old(woken) + TasksOf(wakers[..k])
        modifies this`woken
      {
        assert forall w :: w in wakers[..k + 1] <==> w in wakers[..k] || w == wakers[k];
        if wakers[k].Wake? { woken := woken + {wakers[k].task}; }
        k := k + 1;
      }
      assert wakers[..k] == wakers;
      h := S.WakeAll(h, wakers);
    }
  }

  /** `s` without the object `x` (`retain`, comparing by identity). */
  function Retain<T(==)>(s: seq<T>, x: T): seq<T> {
    if s == [] then [] else if s[0] == x then Retain(s[1..], x) else [s[0]] + Retain(s[1..], x)
  }

  lemma {:induction false} RetainWaiters(vm: Vm, objects: seq<Waiter>, ids: seq<nat>, w: Waiter)
    requires vm.WaitersAre(objects, ids) && vm.HasWaiter(w)
    requires forall i :: 0 <= i < |vm.waiters| ==> vm.waiters[i].id == i
    ensures vm.WaitersAre(Retain(objects, w), Without(ids, w.id))
  {
    if objects != [] { RetainWaiters(vm, objects[1..], ids[1..], w); }
  }

  lemma {:induction false} RetainOffers(vm: Vm, objects: seq<Offer>, ids: seq<nat>, o: Offer)
    requires vm.OffersAre(objects, ids) && vm.HasOffer(o)
    requires forall i :: 0 <= i < |vm.offers| ==> vm.offers[i].id == i
    ensures vm.OffersAre(Retain(objects, o), Without(ids, o.id))
  {
    if objects != [] { RetainOffers(vm, objects[1..], ids[1..], o); }
  }

  lemma {:induction false} WithoutNone<T(!new)>(s: seq<T>, x: T)
    requires x !in s
    ensures Without(s, x) == s
  {
    if s != [] { WithoutNone(s[1..], x); }
  }

  /** Removing by position and by identity agree when nothing is queued twice. */
  lemma {:induction false} RemovedAt<T(!new)>(s: seq<T>, k: nat)
    requires k < |s| && NoDup(s)
    ensures Without(s, s[k]) == RemoveAt(s, k)
  {
    if k == 0 {
      WithoutNone(s[1..], s[0]);
    } else {
      assert s[0] != s[k];
      RemovedAt(s[1..], k - 1);
      assert s[1..][k - 1] == s[k];
      assert RemoveAt(s, k) == [s[0]] + RemoveAt(s[1..], k - 1);
    }
  }

  lemma WaiterAt(vm: Vm, c: ChanCore, k: nat)
    requires vm.Valid() && vm.Has(c) && k < |c.waiters|
    ensures |c.waiters| == |vm.h.chans[c.id].waiters|
    ensures var w := vm.h.chans[c.id].waiters[k];
      && w < |vm.h.waiters| && c.waiters[k].id == w
      && vm.HasWaiter(c.waiters[k]) && vm.WaiterIs(c.waiters[k], vm.h.waiters[w])
  {
    hide Vm.OffersValid, Vm.MarksValid;
    assert vm.chans[c.id] == c;
    assert vm.waiters[vm.h.chans[c.id].waiters[k]] == c.waiters[k];
  }

  lemma OfferAt(vm: Vm, c: ChanCore, k: nat)
    requires vm.Valid() && vm.Has(c) && k < |c.offers|
    ensures |c.offers| == |vm.h.chans[c.id].offers|
    ensures var o := vm.h.chans[c.id].offers[k];
      && o < |vm.h.offers| && c.offers[k].id == o
      && vm.HasOffer(c.offers[k]) && vm.OfferIs(c.offers[k], vm.h.offers[o])
  {
    hide Vm.WaitersValid, Vm.MarksValid;
    assert vm.chans[c.id] == c;
    assert vm.offers[vm.h.chans[c.id].offers[k]] == c.offers[k];
  }

  lemma WaiterAgrees(vm: Vm, w: Waiter)
    requires vm.Valid() && vm.HasWaiter(w)
    ensures w.id < |vm.h.waiters| && vm.WaiterIs(w, vm.h.waiters[w.id])
  {
    hide Vm.ChansValid, Vm.OffersValid, Vm.MarksValid;
  }

  lemma OfferAgrees(vm: Vm, o: Offer)
    requires vm.Valid() && vm.HasOffer(o)
    ensures o.id < |vm.h.offers| && vm.OfferIs(o, vm.h.offers[o.id])
  {
    hide Vm.ChansValid, Vm.WaitersValid, Vm.MarksValid;
  }

  /** A channel and its record agree. */
  lemma ChanAt(vm: Vm, c: ChanCore)
    requires vm.Valid() && vm.Has(c)
    ensures c.id < |vm.h.chans| && vm.ChanIs(c, vm.h.chans[c.id])
    ensures var rec := vm.h.chans[c.id]; |c.offers| == |rec.offers| && |c.waiters| == |rec.waiters|
  {
    hide Vm.OffersValid, Vm.WaitersValid, Vm.MarksValid;
    assert vm.chans[c.id] == c;
  }

  /** Whether `m` is claimed, and whether it is the select `me`. */
  lemma MarkAt(vm: Vm, m: SelectMark?, mark: Option<nat>, me: SelectMark?, myMark: Option<nat>)
    requires vm.Valid() && vm.MarkIs(m, mark) && vm.MarkIs(me, myMark)
    ensures Claimed(vm.h, mark) == (m != null && m.claimed)
    ensures SameSelect(mark, myMark) == (m != null && m == me)
  {
    hide Vm.ChansValid, Vm.OffersValid, Vm.WaitersValid;
    if m != null { assert vm.marks[m.id] == m; }
  }

  lemma WaiterIds(vm: Vm)
    requires vm.Valid()
    ensures forall i :: 0 <= i < |vm.waiters| ==> vm.waiters[i].id == i
  {
  }

  lemma OfferIds(vm: Vm)
    requires vm.Valid()
    ensures forall i :: 0 <= i < |vm.offers| ==> vm.offers[i].id == i
  {
  }

  /** New identifiers are not queued yet. */
  lemma NewInQueue(vm: Vm, c: ChanCore)
    requires vm.Valid() && vm.Has(c)
    ensures c.id < |vm.h.chans|
    ensures |vm.waiters| == |vm.h.waiters| && |vm.waiters| !in vm.h.chans[c.id].waiters
    ensures |vm.offers| == |vm.h.offers| && |vm.offers| !in vm.h.chans[c.id].offers
  {
    ChanAt(vm, c);
  }

  lemma RemovedOffer(vm: Vm, objects: seq<Offer>, ids: seq<nat>, k: nat)
    requires vm.OffersAre(objects, ids) && k < |ids|
    ensures vm.OffersAre(RemoveAt(objects, k), RemoveAt(ids, k))
  {
    var objects', ids' := RemoveAt(objects, k), RemoveAt(ids, k);
    forall j | 0 <= j < |ids'| ensures ids'[j] < |vm.offers| && vm.offers[ids'[j]] == objects'[j] {
      var i := if j < k then j else j + 1;
      assert ids'[j] == ids[i] && objects'[j] == objects[i];
    }
  }

  lemma WakersFrom(h: Heap, ids: seq<nat>, k: nat, wakers: seq<Waker>)
    requires k < |ids| && ids[k] < |h.waiters|
    ensures wakers + WaiterWakers(h, ids[k..]) == (wakers + [h.waiters[ids[k]].waker]) + WaiterWakers(h, ids[k + 1..])
  {
    assert ids[k..][1..] == ids[k + 1..];
  }

  lemma SenderWakersFrom(h: Heap, ids: seq<nat>, k: nat, wakers: seq<Waker>)
    requires k < |ids| && ids[k] < |h.offers|
    ensures wakers + OfferWakers(h, ids[k..]) == (wakers + [h.offers[ids[k]].waker]) + OfferWakers(h, ids[k + 1..])
  {
    assert ids[k..][1..] == ids[k + 1..];
  }

  lemma NoSenderWakers(h: Heap)
    ensures OfferWakers(h, []) == []
  {
  }

  lemma {:induction false} SameWakers(h: Heap, h': Heap, ids: seq<nat>)
    requires h'.waiters == h.waiters
    ensures WaiterWakers(h', ids) == WaiterWakers(h, ids)
  {
    if ids != [] { SameWakers(h, h', ids[1..]); }
  }

  lemma {:induction false} SameOfferWakers(h: Heap, h': Heap, ids: seq<nat>)
    requires h'.offers == h.offers
    ensures OfferWakers(h', ids) == OfferWakers(h, ids)
  {
    if ids != [] { SameOfferWakers(h, h', ids[1..]); }
  }

  lemma {:induction false} SameFound(h: Heap, h': Heap, ids: seq<nat>)
    requires h'.waiters == h.waiters && h'.marks == h.marks
    ensures S.FindWaiter(h', ids, None) == S.FindWaiter(h, ids, None)
  {
    if ids != [] { SameFound(h, h', ids[1..]); }
  }

  /** Taking an offer: off the queue, claimed, taken, recorded, and its sender woken. */
  lemma TakenInSteps(h: Heap, c: nat, o: nat)
    requires c < |h.chans| && o < |h.offers|
    ensures var rec := h.offers[o];
      var h1 := h.(chans := h.chans[c := h.chans[c].(offers := Without(h.chans[c].offers, o))]);
      var claimed := S.Claim(h1, rec.select);
      var h2 := claimed.(offers := claimed.offers[o := rec.(state := Taken)]);
      var h3 := S.Hand(S.Accept(h2, rec.item), rec.item);
      h3.woken == h.woken && S.WakeAll(h3, [rec.waker]) == S.TakeOffer(h, c, o)
  {
  }

  /** A local channel. */
  class ChanCore {
    ghost const id: nat
    var buf: seq<Item>
    const cap: nat
    var closed: bool
    var recvWakers: seq<Waker>
    var sendWakers: seq<Waker>
    var offers: seq<Offer>
    var waiters: seq<Waiter>

    constructor (ghost id: nat, cap: nat)
      ensures this.id == id && this.cap == cap && !closed && buf == []
      ensures recvWakers == [] && sendWakers == [] && offers == [] && waiters == []
    {
      this.id, this.cap, closed, buf := id, cap, false, [];
      recvWakers, sendWakers, offers, waiters := [], [], [], [];
    }

    /** The wakers of the rendezvous waiters, in order. */
    method WaitingWakers(vm: Vm) returns (wakers: seq<Waker>)
      requires vm.Valid() && vm.Has(this)
      ensures wakers == WaiterWakers(vm.h, vm.h.chans[id].waiters)
    {
      ghost var ids := vm.h.chans[id].waiters;
      ChanAt(vm, this);
      hide Vm.Valid, NoDup, Vm.OffersAre, WaiterWakers;
      wakers := [];
      var k := 0;
      while k < |waiters|
        invariant k <= |waiters|
        invariant wakers + WaiterWakers(vm.h, ids[k..]) == WaiterWakers(vm.h, ids)
      {
        WaiterAt(vm, this, k);
        WakersFrom(vm.h, ids, k, wakers);
        wakers := wakers + [waiters[k].waker];
        k := k + 1;
      }
    }

    /** Empty the plain list and add the wakers in the queue (`receiver_wakers`). */
    method ReceiverWakers(vm: Vm) returns (wakers: seq<Waker>)
      requires vm.Valid() && vm.Has(this)
      modifies this`recvWakers, vm`h
      ensures vm.Valid()
      ensures vm.h == old(vm.h).(chans := old(vm.h).chans[id := old(vm.h).chans[id].(recvWakers := [])])
      ensures wakers == S.ReceiverWakers(old(vm.h), id)
    {
      hide WaiterWakers, Vm.Valid;
      ChanAt(vm, this);
      var waiting := WaitingWakers(vm);
      wakers := recvWakers + waiting;
      SetRecvWakers(vm, []);
    }

    method SetRecvWakers(vm: Vm, list: seq<Waker>)
      requires vm.Valid() && vm.Has(this)
      modifies this`recvWakers, vm`h
      ensures vm.Valid() && id < |old(vm.h).chans|
      ensures vm.h == old(vm.h).(chans := old(vm.h).chans[id := old(vm.h).chans[id].(recvWakers := list)])
    {
      hide Vm.OffersValid, Vm.WaitersValid, Vm.MarksValid, NoDup, Vm.OffersAre, Vm.WaitersAre;
      recvWakers := list;
      vm.h := vm.h.(chans := vm.h.chans[id := vm.h.chans[id].(recvWakers := list)]);
    }

    method SetSendWakers(vm: Vm, list: seq<Waker>)
      requires vm.Valid() && vm.Has(this) && cap != 0
      modifies this`sendWakers, vm`h
      ensures vm.Valid() && id < |old(vm.h).chans|
      ensures vm.h == old(vm.h).(chans := old(vm.h).chans[id := old(vm.h).chans[id].(sendWakers := list)])
    {
      hide Vm.OffersValid, Vm.WaitersValid, Vm.MarksValid, NoDup, Vm.OffersAre, Vm.WaitersAre;
      sendWakers := list;
      vm.h := vm.h.(chans := vm.h.chans[id := vm.h.chans[id].(sendWakers := list)]);
    }

    /** The position of the first waiter that a send of `me` may fill. */
    method FindWaiter(vm: Vm, me: SelectMark?, ghost mark: Option<nat>) returns (found: Option<nat>)
      requires vm.Valid() && vm.Has(this) && vm.MarkIs(me, mark)
      ensures found == S.FindWaiter(vm.h, vm.h.chans[id].waiters, mark)
    {
      ghost var ids := vm.h.chans[id].waiters;
      ChanAt(vm, this);
      hide Vm.Valid, S.Claimed, S.SameSelect;
      var k := 0;
      while k < |waiters|
        invariant k <= |waiters|
        invariant forall j :: 0 <= j < k ==> !Fillable(vm.h, ids[j], mark)
      {
        var w := waiters[k];
        WaiterAt(vm, this, k);
        MarkAt(vm, w.select, vm.h.waiters[w.id].select, me, mark);
        var claimed := w.select != null && w.select.claimed;
        var same := w.select != null && w.select == me;
        if w.slot == None && !claimed && !same { return Some(k); }
        k := k + 1;
      }
      return None;
    }

    /** Fill the first slot open to a send of the select `me`; the waker to call for it. */
    method FillWaiter(vm: Vm, item: Item, me: SelectMark?, ghost mark: Option<nat>) returns (waker: Option<Waker>)
      requires vm.Valid() && vm.Has(this) && vm.MarkIs(me, mark)
      modifies vm.waiters, vm`h
      ensures vm.Valid()
      ensures var k := S.FindWaiter(old(vm.h), old(vm.h).chans[id].waiters, mark);
        if k.None? then waker.None? && vm.h == old(vm.h)
        else
          var w := old(vm.h).chans[id].waiters[k.value];
          && waker.Some? && vm.h.woken == old(vm.h).woken
          && S.WakeAll(vm.h, [waker.value]) == S.Fill(old(vm.h), w, item)
    {
      hide Vm.Valid, S.Fillable, S.WakeAll, S.Fill;
      ChanAt(vm, this);
      var found := FindWaiter(vm, me, mark);
      if found.None? { return None; }
      WaiterAt(vm, this, found.value);
      var w := waiters[found.value];
      w.Fill(vm, item);
      return Some(w.waker);
    }

    /** The position of the first offer that a receive of `me` may take. */
    method FindOffer(vm: Vm, me: SelectMark?, ghost mark: Option<nat>) returns (found: Option<nat>)
      requires vm.Valid() && vm.Has(this) && vm.MarkIs(me, mark)
      ensures found == S.FindOffer(vm.h, vm.h.chans[id].offers, mark)
    {
      ghost var ids := vm.h.chans[id].offers;
      ChanAt(vm, this);
      hide Vm.Valid, S.Claimed, S.SameSelect;
      var k := 0;
      while k < |offers|
        invariant k <= |offers|
        invariant forall j :: 0 <= j < k ==> !Eligible(vm.h, ids[j], mark)
      {
        var o := offers[k];
        OfferAt(vm, this, k);
        MarkAt(vm, o.select, vm.h.offers[o.id].select, me, mark);
        var claimed := o.select != null && o.select.claimed;
        var same := o.select != null && o.select == me;
        if o.state == Open && !claimed && !same { return Some(k); }
        k := k + 1;
      }
      return None;
    }

    /** Remove the offer at `k` from the queue. */
    method Dequeue(vm: Vm, k: nat) returns (offer: Offer)
      requires vm.Valid() && vm.Has(this) && k < |offers|
      modifies this`offers, vm`h
      ensures vm.Valid() && vm.HasOffer(offer) && offer == old(offers[k])
      ensures var ids := old(vm.h).chans[id].offers;
        && k < |ids| && offer.id == ids[k]
        && vm.h == old(vm.h).(chans := old(vm.h).chans[id := old(vm.h).chans[id].(offers := Without(ids, ids[k]))])
    {
      hide Vm.OffersAre, Vm.WaitersAre, Vm.OffersValid, Vm.WaitersValid, Vm.MarksValid, NoDup;
      ChanAt(vm, this);
      OfferAt(vm, this, k);
      ghost var ids := vm.h.chans[id].offers;
      RemovedAt(ids, k);
      RemovedOffer(vm, offers, ids, k);
      offer := offers[k];
      offers := RemoveAt(offers, k);
      vm.h := vm.h.(chans := vm.h.chans[id := vm.h.chans[id].(offers := RemoveAt(ids, k))]);
    }

    /** Remove the first offer open to a receive of the select `me`: its value, and the waker to call for it. */
    method TakeOffer(vm: Vm, me: SelectMark?, ghost mark: Option<nat>) returns (got: Option<(Item, Waker)>)
      requires vm.Valid() && vm.Has(this) && vm.MarkIs(me, mark)
      modifies this`offers, vm.offers, vm.marks, vm`h
      ensures vm.Valid()
      ensures var k := S.FindOffer(old(vm.h), old(vm.h).chans[id].offers, mark);
        if k.None? then got.None? && vm.h == old(vm.h)
        else
          var o := old(vm.h).chans[id].offers[k.value];
          && got.Some? && got.value.0 == old(vm.h).offers[o].item && vm.h.woken == old(vm.h).woken
          && S.WakeAll(vm.h, [got.value.1]) == S.TakeOffer(old(vm.h), id, o)
    {
      hide Vm.Valid, TasksOf, S.TakeOffer, S.Claim, S.WakeAll, NoDup, Vm.OffersAre, Vm.WaitersAre;
      ChanAt(vm, this);
      var found := FindOffer(vm, me, mark);
      if found.None? { return None; }
      OfferAt(vm, this, found.value);
      TakenInSteps(vm.h, id, offers[found.value].id);
      var offer := Dequeue(vm, found.value);
      var item := offer.Take(vm);
      vm.Record(item);
      return Some((item, offer.waker));
    }

    /** Pop the buffer, which makes room: the waiting senders are woken. */
    method TakeFront(vm: Vm) returns (item: Item)
      requires vm.Valid() && vm.Has(this) && buf != []
      modifies this`buf, this`sendWakers, vm`h, vm`woken
      ensures vm.Valid() && id < |old(vm.h).chans| && old(vm.h).chans[id].buf == old(buf)
      ensures item == old(buf[0]) && vm.h == S.PopFront(old(vm.h), id)
    {
      hide Vm.OffersValid, Vm.WaitersValid, Vm.MarksValid, Vm.OffersAre, Vm.WaitersAre, NoDup;
      ChanAt(vm, this);
      item := buf[0];
      buf := buf[1..];
      var wakers := sendWakers;
      sendWakers := [];
      vm.h := S.Hand(vm.h.(chans := vm.h.chans[id := vm.h.chans[id].(
        buf := buf, popped := vm.h.chans[id].popped + [item], sendWakers := [])]), item);
      vm.Wake(wakers);
    }

    /** Receive from a buffered channel (`poll_recv`). */
    method PollRecv(vm: Vm, w: Waker, ghost arm: Arm) returns (out: Out)
      requires vm.Valid() && vm.Has(this) && arm.Recv? && arm.chan == id && ArmRefs(vm.h, arm)
      modifies this`buf, this`sendWakers, this`recvWakers, vm`h, vm`woken
      ensures vm.Valid() && ArmStep(vm.h, arm, out) == S.PollBuffered(old(vm.h), arm, w)
    {
      hide Vm.Valid, Vm.OffersAre, Vm.WaitersAre, NoDup, S.PopFront;
      ChanAt(vm, this);
      if buf != [] {
        var item := TakeFront(vm);
        return Received(item);
      }
      if closed { return RecvClosed; }
      SetRecvWakers(vm, S.Register(recvWakers, w));
      return Pending;
    }

    /** Receive from the buffer, or from an offer, if that is possible now (`try_recv`). */
    method TryRecv(vm: Vm) returns (out: TryOut)
      requires vm.Valid() && vm.Has(this)
      modifies this, vm.offers, vm.marks, vm`h, vm`woken
      ensures vm.Valid() && id < |old(vm.h).chans| && (vm.h, out) == S.TryRecv(old(vm.h), id)
    {
      hide Vm.Valid, Vm.OffersAre, Vm.WaitersAre, NoDup, S.PopFront, S.TakeOffer, S.WakeAll, S.Eligible;
      ChanAt(vm, this);
      if buf != [] {
        var item := TakeFront(vm);
        return Got(item);
      }
      if cap == 0 {
        var got := TakeOffer(vm, null, None);
        if got.Some? {
          vm.Wake([got.value.1]);
          return Got(got.value.0);
        }
      }
      return if closed then Closed else Empty;
    }

    /** The next receive gets `item` (`push_front`, then the receivers are woken). */
    method PutFront(vm: Vm, item: Item)
      requires vm.Valid() && vm.Has(this)
      modifies this`buf, this`recvWakers, vm`h, vm`woken
      ensures vm.Valid() && id < |old(vm.h).chans| && vm.h == S.PushFront(old(vm.h), id, item)
    {
      hide Vm.OffersValid, Vm.WaitersValid, Vm.MarksValid, Vm.OffersAre, Vm.WaitersAre, NoDup, S.ReceiverWakers;
      ChanAt(vm, this);
      buf := [item] + buf;
      vm.h := vm.h.(chans := vm.h.chans[id := vm.h.chans[id].(buf := buf, putBacks := vm.h.chans[id].putBacks + 1)]);
      var wakers := ReceiverWakers(vm);
      vm.Wake(wakers);
    }

    /** Undo a receive whose value reached nobody (`unrecv`). */
    method Unrecv(vm: Vm, item: Item)
      requires vm.Valid() && vm.Has(this)
      modifies this`buf, this`recvWakers, vm`h, vm`woken
      ensures vm.Valid() && id < |old(vm.h).chans| && vm.h == S.Unrecv(old(vm.h), id, item)
    {
      hide S.PushFront;
      vm.h := vm.h.(handed := vm.h.handed - multiset{item});
      PutFront(vm, item);
    }

    /** Push `item` at the back, waking the waiting receivers. */
    method PutBack(vm: Vm, item: Item)
      requires vm.Valid() && vm.Has(this)
      modifies this`buf, this`recvWakers, vm`h, vm`woken
      ensures vm.Valid() && id < |old(vm.h).chans| && vm.h == S.PushBack(old(vm.h), id, item)
    {
      hide Vm.OffersValid, Vm.WaitersValid, Vm.MarksValid, Vm.OffersAre, Vm.WaitersAre, NoDup;
      ChanAt(vm, this);
      buf := buf + [item];
      var wakers := recvWakers;
      recvWakers := [];
      vm.h := S.Accept(vm.h.(chans := vm.h.chans[id := vm.h.chans[id].(
        buf := buf, pushed := vm.h.chans[id].pushed + [item], recvWakers := [])]), item);
      vm.Wake(wakers);
    }

    /** Send into a buffered channel (`poll_send`): what is left of `slot`, and the outcome. */
    method PollSend(vm: Vm, w: Waker, slot: Option<Item>, ghost arm: Arm, ghost own: Owner, ghost mark: Option<nat>)
      returns (left: Option<Item>, out: Out)
      requires vm.Valid() && vm.Has(this) && cap != 0
      requires arm.Send? && arm.chan == id && ArmRefs(vm.h, arm) && slot == Some(arm.item)
      modifies this`buf, this`recvWakers, this`sendWakers, vm`h, vm`woken
      ensures vm.Valid() && ArmStep(vm.h, arm, out) == S.PollSend(old(vm.h), arm, own, mark, w)
      ensures left == if out.Sent? then None else slot
    {
      hide Vm.Valid, Vm.OffersAre, Vm.WaitersAre, NoDup, S.PushBack, S.Refuse;
      ChanAt(vm, this);
      if closed {
        vm.Refuse(arm.item.serial);
        return slot, SendClosed;
      }
      if |buf| < cap {
        PutBack(vm, slot.value);
        return None, Sent;
      }
      SetSendWakers(vm, S.Register(sendWakers, w));
      return slot, Pending;
    }

    /** Send `item`, a new send of `t`, without waiting (`try_send`). */
    method TrySend(vm: Vm, item: Item, ghost t: Task) returns (out: TryOut)
      requires vm.Valid() && vm.Has(this) && item == Item(item.value, |vm.h.sends|, None)
      modifies this, vm.waiters, vm`h, vm`woken
      ensures vm.Valid() && id < |old(vm.h).chans| && (vm.h, out) == S.TrySend(old(vm.h), t, id, item.value)
    {
      hide Vm.Valid, Vm.OffersAre, Vm.WaitersAre, NoDup, S.PushBack, S.Fill, S.WakeAll, S.Fillable;
      ChanAt(vm, this);
      if closed {
        vm.AddSend(Refused);
        return Closed;
      }
      if cap == 0 {
        SameFound(vm.h, vm.h.(sends := vm.h.sends + [InFlight(Owner(t, 0))]), vm.h.chans[id].waiters);
        vm.AddSend(InFlight(Owner(t, 0)));
        var waker := FillWaiter(vm, item, null, None);
        if waker.None? {
          vm.Refuse(item.serial);
          assert vm.h.sends == old(vm.h).sends + [Refused];
          return Full;
        }
        vm.Wake([waker.value]);
        return Done;
      }
      if |buf| >= cap {
        vm.AddSend(Refused);
        return Full;
      }
      vm.AddSend(InFlight(Owner(t, 0)));
      PutBack(vm, item);
      return Done;
    }

    /** Close the channel: withdraw the open offers and wake everyone waiting (`close`). */
    method Close(vm: Vm)
      requires vm.Valid() && vm.Has(this)
      modifies this, vm.offers, vm`h, vm`woken
      ensures vm.Valid() && id < |old(vm.h).chans| && vm.h == S.Close(old(vm.h), id)
    {
      hide Vm.Valid, Vm.WaitersAre, NoDup, S.WaiterWakers, S.OfferWakers, S.WithdrawEach, S.RefuseEach, S.SerialsOf;
      ChanAt(vm, this);
      if closed { return; }
      ghost var h0, ids := vm.h, vm.h.chans[id].offers;
      var taken, senders := offers, sendWakers;
      EndQueues(vm);
      SameWakers(h0, vm.h, h0.chans[id].waiters);
      var wakers := ReceiverWakers(vm);
      SameOfferWakers(h0, vm.h, ids);
      var offerWakers := vm.WithdrawOffers(taken, ids);
      assert vm.h.chans == h0.chans[id :=
        h0.chans[id].(closed := true, recvWakers := [], sendWakers := [], offers := [])];
      vm.Wake(wakers + senders + offerWakers);
    }

    /** Mark the channel closed and take its offers and waiting senders. */
    method EndQueues(vm: Vm)
      requires vm.Valid() && vm.Has(this)
      modifies this`closed, this`offers, this`sendWakers, vm`h
      ensures vm.Valid() && id < |old(vm.h).chans|
      ensures vm.h == old(vm.h).(chans := old(vm.h).chans[id :=
        old(vm.h).chans[id].(closed := true, sendWakers := [], offers := [])])
    {
      hide Vm.OffersValid, Vm.WaitersValid, Vm.MarksValid, Vm.WaitersAre;
      ChanAt(vm, this);
      closed, offers, sendWakers := true, [], [];
      vm.h := vm.h.(chans := vm.h.chans[id := vm.h.chans[id].(closed := true, sendWakers := [], offers := [])]);
    }

    /** Pop the front of a rendezvous channel, where no sender waits for room. */
    method PopReturned(vm: Vm) returns (item: Item)
      requires vm.Valid() && vm.Has(this) && buf != [] && cap == 0
      modifies this`buf, vm`h
      ensures vm.Valid() && id < |old(vm.h).chans| && old(vm.h).chans[id].buf == old(buf)
      ensures item == old(buf[0]) && vm.h == S.PopFront(old(vm.h), id)
    {
      hide Vm.OffersValid, Vm.WaitersValid, Vm.MarksValid, Vm.OffersAre, Vm.WaitersAre, NoDup;
      ChanAt(vm, this);
      item := buf[0];
      buf := buf[1..];
      assert TasksOf(sendWakers) == {};
      vm.h := S.PopFront(vm.h, id);
    }

    /** Remove `waiter` from the queue (`retain`). */
    method RemoveWaiter(vm: Vm, waiter: Waiter)
      requires vm.Valid() && vm.Has(this) && vm.HasWaiter(waiter)
      modifies this`waiters, vm`h
      ensures vm.Valid() && id < |old(vm.h).chans| && vm.h == S.Forget(old(vm.h), id, Some(waiter.id))
    {
      hide Vm.OffersAre, Vm.WaitersAre, Vm.OffersValid, Vm.WaitersValid, Vm.MarksValid, NoDup;
      ChanAt(vm, this);
      WaiterIds(vm);
      RetainWaiters(vm, waiters, vm.h.chans[id].waiters, waiter);
      waiters := Retain(waiters, waiter);
      vm.h := S.Forget(vm.h, id, Some(waiter.id));
    }

    /** Remove `offer` from the queue (`retain`): its send is refused. */
    method RemoveOffer(vm: Vm, offer: Offer)
      requires vm.Valid() && vm.Has(this) && vm.HasOffer(offer)
      modifies this`offers, vm`h
      ensures vm.Valid() && id < |old(vm.h).chans|
      ensures vm.h == old(vm.h).(chans := old(vm.h).chans[id :=
        old(vm.h).chans[id].(offers := Without(old(vm.h).chans[id].offers, offer.id))])
    {
      hide Vm.OffersAre, Vm.WaitersAre, Vm.OffersValid, Vm.WaitersValid, Vm.MarksValid, NoDup;
      ChanAt(vm, this);
      OfferIds(vm);
      RetainOffers(vm, offers, vm.h.chans[id].offers, offer);
      offers := Retain(offers, offer);
      vm.h := vm.h.(chans := vm.h.chans[id := vm.h.chans[id].(offers := Without(vm.h.chans[id].offers, offer.id))]);
    }

    method QueueWaiter(vm: Vm, waiter: Waiter)
      requires vm.Valid() && vm.Has(this) && vm.HasWaiter(waiter)
      requires id < |vm.h.chans| && waiter.id !in vm.h.chans[id].waiters
      modifies this`waiters, vm`h
      ensures vm.Valid()
      ensures vm.h == old(vm.h).(chans := old(vm.h).chans[id :=
        old(vm.h).chans[id].(waiters := old(vm.h).chans[id].waiters + [waiter.id])])
    {
      hide Vm.OffersValid, Vm.WaitersValid, Vm.MarksValid, Vm.OffersAre;
      ChanAt(vm, this);
      waiters := waiters + [waiter];
      vm.h := vm.h.(chans := vm.h.chans[id := vm.h.chans[id].(waiters := vm.h.chans[id].waiters + [waiter.id])]);
    }

    method QueueOffer(vm: Vm, offer: Offer)
      requires vm.Valid() && vm.Has(this) && vm.HasOffer(offer)
      requires id < |vm.h.chans| && offer.id !in vm.h.chans[id].offers
      modifies this`offers, vm`h
      ensures vm.Valid()
      ensures vm.h == old(vm.h).(chans := old(vm.h).chans[id :=
        old(vm.h).chans[id].(offers := old(vm.h).chans[id].offers + [offer.id])])
    {
      hide Vm.OffersValid, Vm.WaitersValid, Vm.MarksValid, Vm.WaitersAre;
      ChanAt(vm, this);
      offers := offers + [offer];
      vm.h := vm.h.(chans := vm.h.chans[id := vm.h.chans[id].(offers := vm.h.chans[id].offers + [offer.id])]);
    }

    /** Queue a new waiter with an empty slot. */
    method PushWaiter(vm: Vm, w: Waker, select: SelectMark?, ghost own: Owner, ghost mark: Option<nat>)
      returns (waiter: Waiter)
      requires vm.Valid() && vm.Has(this) && vm.MarkIs(select, mark)
      modifies this`waiters, vm`h, vm`waiters
      ensures vm.Valid() && vm.HasWaiter(waiter) && fresh(waiter)
      ensures vm.waiters == old(vm.waiters) + [waiter] && waiter.id == |old(vm.h).waiters|
      ensures id < |old(vm.h).chans| && vm.h == S.PostWaiter(old(vm.h), id, own, mark, w)
    {
      hide Vm.Valid;
      NewInQueue(vm, this);
      waiter := new Waiter(|vm.waiters|, w, select);
      vm.AddWaiter(waiter, WaiterRec(None, w, mark, id, own));
      QueueWaiter(vm, waiter);
    }

    /** Queue a new open offer of `item`. */
    method PushOffer(vm: Vm, item: Item, w: Waker, select: SelectMark?, ghost own: Owner, ghost mark: Option<nat>)
      returns (offer: Offer)
      requires vm.Valid() && vm.Has(this) && vm.MarkIs(select, mark)
      modifies this`offers, vm`h, vm`offers
      ensures vm.Valid() && vm.HasOffer(offer) && fresh(offer)
      ensures vm.offers == old(vm.offers) + [offer] && offer.id == |old(vm.h).offers|
      ensures id < |old(vm.h).chans|
      ensures vm.h == old(vm.h).(offers := old(vm.h).offers + [OfferRec(item, Open, w, mark, id, own)],
        chans := old(vm.h).chans[id := old(vm.h).chans[id].(
          offers := old(vm.h).chans[id].offers + [|old(vm.h).offers|])])
    {
      hide Vm.Valid;
      NewInQueue(vm, this);
      offer := new Offer(|vm.offers|, item, w, select);
      vm.AddOffer(offer, OfferRec(item, Open, w, mark, id, own));
      QueueOffer(vm, offer);
    }
  }
}
