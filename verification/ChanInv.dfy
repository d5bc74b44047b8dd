/** What every channel operation keeps true of the heap and of the cases that wait on it. */
module ChanInv {
  import opened Basics
  import opened ChanSpec

  // ---- structure ----------------------------------------------------------

  /** A channel's queues name waiters and open offers of that channel. */
  ghost predicate ChanOk(h: Heap, c: nat)
    requires c < |h.chans|
  {
    var core := h.chans[c];
    && (forall w :: w in core.waiters ==> w < |h.waiters| && h.waiters[w].chan == c)
    && (forall o :: o in core.offers ==> o < |h.offers| && h.offers[o].chan == c && h.offers[o].state == Open)
    && (core.cap > 0 ==> core.offers == [] && core.waiters == [])
    && (core.closed ==> core.offers == [])
  }

  /** `select` is a mark of the task that owns the record. */
  ghost predicate SelectOk(h: Heap, select: Option<nat>, own: Owner) {
    select.Some? ==> select.value < |h.marks| && h.marks[select.value].owner == own.task
  }

  /** An open offer is queued and its send in flight; a taken one is accepted and claimed its select. */
  ghost predicate OfferOk(h: Heap, o: nat)
    requires o < |h.offers|
  {
    var rec := h.offers[o];
    && SelectOk(h, rec.select, rec.owner)
    && rec.chan < |h.chans|
    && rec.item.serial < |h.sends|
    && rec.item.origin == rec.select
    && match rec.state
       case Open =>
         && o in h.chans[rec.chan].offers
         && h.sends[rec.item.serial] == InFlight(rec.owner)
       case Taken =>
         && (rec.select.Some? ==> Claimed(h, rec.select))
         && h.sends[rec.item.serial] == Accepted && rec.item in h.accepted
       case Withdrawn =>
         h.sends[rec.item.serial] == Refused
  }

  /** A filled waiter is queued. */
  ghost predicate WaiterOk(h: Heap, w: nat)
    requires w < |h.waiters|
  {
    var rec := h.waiters[w];
    && SelectOk(h, rec.select, rec.owner)
    && rec.chan < |h.chans|
    && (rec.slot.Some? ==> w in h.chans[rec.chan].waiters)
  }

  /** No select has two taken offers, and no case has two open ones. */
  ghost predicate Apart(a: OfferRec, b: OfferRec) {
    && !(a.state == Taken && b.state == Taken && a.select.Some? && a.select == b.select)
    && !(a.state == Open && b.state == Open && a.owner == b.owner)
  }

  ghost predicate ChansOk(h: Heap) {
    forall c {:trigger h.chans[c]} {:trigger ChanOk(h, c)} :: 0 <= c < |h.chans| ==> ChanOk(h, c)
  }

  ghost predicate OffersOk(h: Heap) {
    forall o {:trigger h.offers[o]} {:trigger OfferOk(h, o)} :: 0 <= o < |h.offers| ==> OfferOk(h, o)
  }

  ghost predicate WaitersOk(h: Heap) {
    forall w {:trigger h.waiters[w]} {:trigger WaiterOk(h, w)} :: 0 <= w < |h.waiters| ==> WaiterOk(h, w)
  }

  ghost predicate OffersApart(h: Heap) {
    forall a, b :: 0 <= a < b < |h.offers| ==> Apart(h.offers[a], h.offers[b])
  }

  ghost predicate Structure(h: Heap) {
    ChansOk(h) && OffersOk(h) && WaitersOk(h) && OffersApart(h)
  }

  // ---- cases --------------------------------------------------------------

  /** Nothing open or queued belongs to the case `own` but what `arm` holds. */
  ghost predicate Held(h: Heap, arm: Arm, own: Owner) {
    && (forall o :: 0 <= o < |h.offers| && h.offers[o].owner == own && h.offers[o].state == Open
          ==> arm.Send? && arm.offer == Some(o))
    && (forall w :: 0 <= w < |h.waiters| && h.waiters[w].owner == own && Queued(h, w)
          ==> arm.Recv? && arm.waiter == Some(w))
  }

  ghost predicate Queued(h: Heap, w: nat)
    requires w < |h.waiters|
  {
    h.waiters[w].chan < |h.chans| && w in h.chans[h.waiters[w].chan].waiters
  }

  /** The case `arm` and the records it holds agree. */
  ghost predicate ArmOk(h: Heap, arm: Arm, own: Owner, mark: Option<nat>) {
    && ArmRefs(h, arm)
    && SelectOk(h, mark, own)
    && Held(h, arm, own)
    && match arm
       case Recv(c, w) =>
         w.Some? ==>
           && w.value in h.chans[c].waiters
           && h.waiters[w.value].owner == own && h.waiters[w.value].select == mark
       case Send(c, item, o, _) =>
         && item.serial < |h.sends| && item.origin == mark
         && (o.None? ==> h.sends[item.serial] == InFlight(own))
         && (o.Some? ==>
               && h.chans[c].cap == 0
               && h.offers[o.value].chan == c && h.offers[o.value].item == item
               && h.offers[o.value].owner == own && h.offers[o.value].select == mark
               && (h.offers[o.value].state == Withdrawn ==> h.chans[c].closed))
       case Other(_) => true
  }

  lemma PopFrontStructure(h: Heap, c: nat)
    requires Structure(h) && c < |h.chans| && h.chans[c].buf != []
    ensures Structure(PopFront(h, c))
  {}

  lemma PushFrontStructure(h: Heap, c: nat, item: Item)
    requires Structure(h) && c < |h.chans|
    ensures Structure(PushFront(h, c, item))
  {}

  lemma PushBackStructure(h: Heap, c: nat, item: Item, own: Owner)
    requires Structure(h) && c < |h.chans|
    requires item.serial < |h.sends| && (h.sends[item.serial] == InFlight(own))
    requires forall o :: 0 <= o < |h.offers| && h.offers[o].state == Open ==> h.offers[o].owner != own
    ensures Structure(PushBack(h, c, item))
  {}

  /** No offer of the select `select` was taken. */
  ghost predicate NoneTaken(h: Heap, select: Option<nat>) {
    forall o :: 0 <= o < |h.offers| && h.offers[o].state == Taken && select.Some? ==> h.offers[o].select != select
  }

  lemma DetachStructure(h: Heap, c: nat, o: nat)
    requires Structure(h) && c < |h.chans| && o < |h.offers| && o in h.chans[c].offers
    requires NoneTaken(h, h.offers[o].select)
    requires h.offers[o].select.Some? ==> Claimed(h, h.offers[o].select)
    ensures Structure(Detach(h, c, o))
  {
    hide TasksOf, Register, WaiterWakers;
  }

  lemma TakeOfferStructure(h: Heap, c: nat, o: nat, mark: Option<nat>)
    requires Structure(h) && c < |h.chans| && o in h.chans[c].offers && Eligible(h, o, mark)
    ensures Structure(TakeOffer(h, c, o))
  {
    ClaimStructure(h, h.offers[o].select);
    DetachStructure(Claim(h, h.offers[o].select), c, o);
  }

  lemma WithdrawOfferStructure(h: Heap, c: nat, o: nat)
    requires Structure(h) && c < |h.chans| && o in h.chans[c].offers
    ensures Structure(WithdrawOffer(h, c, o))
  {
    hide Held;
  }

  lemma ForgetStructure(h: Heap, c: nat, w: Option<nat>)
    requires Structure(h) && c < |h.chans|
    requires w.Some? ==> w.value < |h.waiters| && h.waiters[w.value].slot.None?
    ensures Structure(Forget(h, c, w))
  {}

  lemma FillStructure(h: Heap, w: nat, item: Item, own: Owner)
    requires Structure(h) && w < |h.waiters| && Queued(h, w)
    requires item.serial < |h.sends| && (h.sends[item.serial] == InFlight(own))
    requires forall o :: 0 <= o < |h.offers| && h.offers[o].state == Open ==> h.offers[o].owner != own
    ensures Structure(Fill(h, w, item))
    ensures var h' := Fill(h, w, item);
      h'.sends[item.serial] == Accepted && item in h'.accepted && h'.waiters[w].slot == Some(item)
  {}

  lemma PostOfferStructure(h: Heap, c: nat, item: Item, own: Owner, mark: Option<nat>, w: Waker)
    requires Structure(h) && c < |h.chans| && h.chans[c].cap == 0 && !h.chans[c].closed && SelectOk(h, mark, own)
    requires item.serial < |h.sends| && (h.sends[item.serial] == InFlight(own)) && item.origin == mark
    requires forall o :: 0 <= o < |h.offers| && h.offers[o].state == Open ==> h.offers[o].owner != own
    ensures Structure(PostOffer(h, c, item, own, mark, w))
  {
    hide TasksOf, ReceiverWakers;
  }

  lemma PostWaiterStructure(h: Heap, c: nat, own: Owner, mark: Option<nat>, w: Waker)
    requires Structure(h) && c < |h.chans| && h.chans[c].cap == 0 && SelectOk(h, mark, own)
    ensures Structure(PostWaiter(h, c, own, mark, w))
  {}

  lemma ClaimStructure(h: Heap, mark: Option<nat>)
    requires Structure(h)
    ensures Structure(Claim(h, mark))
  {}

  // ---- sleeping -----------------------------------------------------------

  /** A case of `t` that is not ready, and whose becoming ready wakes `t`. */
  ghost predicate Quiet(h: Heap, arm: Arm, t: Task, mark: Option<nat>)
    requires ArmRefs(h, arm)
  {
    match arm
    case Recv(c, w) =>
      var core := h.chans[c];
      && core.buf == [] && !core.closed
      && (core.cap > 0 ==> Wake(t) in core.recvWakers)
      && (core.cap == 0 ==>
            && w.Some? && h.waiters[w.value].slot == None && h.waiters[w.value].waker == Wake(t)
            && forall o :: o in core.offers ==> !Eligible(h, o, mark))
    case Send(c, _, o, _) =>
      var core := h.chans[c];
      && !core.closed
      && (core.cap > 0 ==> |core.buf| >= core.cap && Wake(t) in core.sendWakers)
      && (core.cap == 0 ==>
            o.Some? && h.offers[o.value].state == Open && h.offers[o.value].waker == Wake(t))
    case Other(ready) => !ready
  }

  /** `arm` is a case of another owner; when `q`, it is quiet or its task is awake. */
  ghost predicate Fine(h: Heap, arm: Arm, own: Owner, mark: Option<nat>, q: bool) {
    ArmOk(h, arm, own, mark) && (q ==> own.task in h.woken || Quiet(h, arm, own.task, mark))
  }

  /** An operation on buffers, wakers, claims and sends of others leaves the case agreeing with the heap. */
  lemma KeepsArm(h: Heap, h': Heap, arm: Arm, own: Owner, mark: Option<nat>)
    requires ArmOk(h, arm, own, mark)
    requires h'.offers == h.offers && h'.waiters == h.waiters && |h'.marks| == |h.marks|
    requires forall m :: 0 <= m < |h.marks| ==> h'.marks[m].owner == h.marks[m].owner
    requires |h'.chans| == |h.chans| && forall c {:trigger h'.chans[c]} :: 0 <= c < |h.chans| ==>
      && h'.chans[c].waiters == h.chans[c].waiters && h'.chans[c].cap == h.chans[c].cap
      && (h.chans[c].closed ==> h'.chans[c].closed)
    requires |h'.sends| == |h.sends| && forall k {:trigger h'.sends[k]} :: 0 <= k < |h.sends| ==>
      (h.sends[k] == InFlight(own) ==> h'.sends[k] == InFlight(own))
    ensures ArmOk(h', arm, own, mark)
  {
  }

  lemma PopFrontFine(h: Heap, c: nat, arm: Arm, own: Owner, mark: Option<nat>, q: bool)
    requires Structure(h) && c < |h.chans| && h.chans[c].buf != [] && Fine(h, arm, own, mark, q)
    ensures Fine(PopFront(h, c), arm, own, mark, q)
  {
    KeepsArm(h, PopFront(h, c), arm, own, mark);
    hide Structure, Held;
  }

  lemma PushFrontFine(h: Heap, c: nat, item: Item, arm: Arm, own: Owner, mark: Option<nat>, q: bool)
    requires Structure(h) && c < |h.chans| && Fine(h, arm, own, mark, q)
    ensures Fine(PushFront(h, c, item), arm, own, mark, q)
  {
    KeepsArm(h, PushFront(h, c, item), arm, own, mark);
    hide Structure, Held;
  }

  lemma PushBackFine(h: Heap, c: nat, item: Item, me: Owner, arm: Arm, own: Owner, mark: Option<nat>, q: bool)
    requires Structure(h) && c < |h.chans| && h.chans[c].cap > 0 && Fine(h, arm, own, mark, q)
    requires item.serial < |h.sends| && h.sends[item.serial] == InFlight(me) && me != own
    ensures Fine(PushBack(h, c, item), arm, own, mark, q)
  {
    KeepsArm(h, PushBack(h, c, item), arm, own, mark);
    hide Structure, Held;
  }

  lemma DetachArm(h: Heap, c: nat, o: nat, arm: Arm, own: Owner, mark: Option<nat>)
    requires Structure(h) && c < |h.chans| && o < |h.offers| && o in h.chans[c].offers
    requires ArmOk(h, arm, own, mark)
    ensures ArmOk(Detach(h, c, o), arm, own, mark)
  {
    DetachHeld(h, c, o, arm, own);
    hide WaitersOk, OffersApart, TasksOf, Held;
  }

  lemma DetachHeld(h: Heap, c: nat, o: nat, arm: Arm, own: Owner)
    requires c < |h.chans| && o < |h.offers| && Held(h, arm, own)
    ensures Held(Detach(h, c, o), arm, own)
  {
    hide TasksOf;
  }

  lemma DetachFine(h: Heap, c: nat, o: nat, arm: Arm, own: Owner, mark: Option<nat>, q: bool)
    requires Structure(h) && c < |h.chans| && o < |h.offers| && o in h.chans[c].offers
    requires Fine(h, arm, own, mark, q)
    ensures Fine(Detach(h, c, o), arm, own, mark, q)
  {
    DetachArm(h, c, o, arm, own, mark);
    hide Structure, Held;
  }

  lemma TakeOfferFine(h: Heap, c: nat, o: nat, me: Option<nat>, arm: Arm, own: Owner, mark: Option<nat>, q: bool)
    requires Structure(h) && c < |h.chans| && o in h.chans[c].offers && Eligible(h, o, me)
    requires Fine(h, arm, own, mark, q)
    ensures Fine(TakeOffer(h, c, o), arm, own, mark, q)
  {
    ClaimStructure(h, h.offers[o].select);
    ClaimFine(h, h.offers[o].select, arm, own, mark, q);
    DetachFine(Claim(h, h.offers[o].select), c, o, arm, own, mark, q);
  }

  lemma WithdrawOfferArm(h: Heap, c: nat, o: nat, arm: Arm, own: Owner, mark: Option<nat>)
    requires Structure(h) && c < |h.chans| && o < |h.offers| && o in h.chans[c].offers
    requires ArmOk(h, arm, own, mark) && h.offers[o].owner != own
    ensures ArmOk(WithdrawOffer(h, c, o), arm, own, mark)
  {
    WithdrawOfferHeld(h, c, o, arm, own);
    hide WaitersOk, OffersApart, Held;
  }

  lemma WithdrawOfferHeld(h: Heap, c: nat, o: nat, arm: Arm, own: Owner)
    requires c < |h.chans| && o < |h.offers| && Held(h, arm, own)
    ensures Held(WithdrawOffer(h, c, o), arm, own)
  {
  }

  lemma WithdrawOfferFine(h: Heap, c: nat, o: nat, arm: Arm, own: Owner, mark: Option<nat>, q: bool)
    requires Structure(h) && c < |h.chans| && o < |h.offers| && o in h.chans[c].offers
    requires Fine(h, arm, own, mark, q) && h.offers[o].owner != own
    ensures Fine(WithdrawOffer(h, c, o), arm, own, mark, q)
  {
    WithdrawOfferArm(h, c, o, arm, own, mark);
    hide Structure, Held;
  }

  lemma ForgetArm(h: Heap, c: nat, w: Option<nat>, arm: Arm, own: Owner, mark: Option<nat>)
    requires Structure(h) && c < |h.chans|
    requires w.Some? ==> w.value < |h.waiters| && h.waiters[w.value].slot.None? && h.waiters[w.value].owner != own
    requires ArmOk(h, arm, own, mark)
    ensures ArmOk(Forget(h, c, w), arm, own, mark)
  {
    hide OfferOk, WaiterOk, OffersApart;
  }

  lemma ForgetFine(h: Heap, c: nat, w: Option<nat>, arm: Arm, own: Owner, mark: Option<nat>, q: bool)
    requires Structure(h) && c < |h.chans|
    requires w.Some? ==> w.value < |h.waiters| && h.waiters[w.value].slot.None? && h.waiters[w.value].owner != own
    requires Fine(h, arm, own, mark, q)
    ensures Fine(Forget(h, c, w), arm, own, mark, q)
  {
    ForgetArm(h, c, w, arm, own, mark);
    hide OffersOk, WaitersOk, OffersApart, Held;
  }

  lemma TakeSlotArm(h: Heap, w: nat, arm: Arm, own: Owner, mark: Option<nat>)
    requires Structure(h) && w < |h.waiters| && h.waiters[w].owner != own
    requires ArmOk(h, arm, own, mark)
    ensures ArmOk(TakeSlot(h, w), arm, own, mark)
  {
    hide OfferOk, OffersApart;
  }

  lemma TakeSlotFine(h: Heap, w: nat, arm: Arm, own: Owner, mark: Option<nat>, q: bool)
    requires Structure(h) && w < |h.waiters| && h.waiters[w].owner != own
    requires Fine(h, arm, own, mark, q)
    ensures Fine(TakeSlot(h, w), arm, own, mark, q)
  {
    TakeSlotArm(h, w, arm, own, mark);
    hide OffersOk, WaitersOk, OffersApart, Held;
  }

  lemma FillArm(h: Heap, w: nat, item: Item, me: Owner, arm: Arm, own: Owner, mark: Option<nat>)
    requires Structure(h) && w < |h.waiters| && Queued(h, w)
    requires item.serial < |h.sends| && h.sends[item.serial] == InFlight(me) && me != own
    requires ArmOk(h, arm, own, mark)
    ensures ArmOk(Fill(h, w, item), arm, own, mark)
  {
    hide OfferOk, OffersApart, TasksOf;
  }

  lemma FillFine(h: Heap, w: nat, item: Item, me: Owner, arm: Arm, own: Owner, mark: Option<nat>, q: bool)
    requires Structure(h) && w < |h.waiters| && Queued(h, w)
    requires item.serial < |h.sends| && h.sends[item.serial] == InFlight(me) && me != own
    requires Fine(h, arm, own, mark, q)
    ensures Fine(Fill(h, w, item), arm, own, mark, q)
  {
    FillArm(h, w, item, me, arm, own, mark);
    hide OffersOk, WaitersOk, OffersApart, Held;
  }

  lemma PostOfferArm(h: Heap, c: nat, item: Item, me: Owner, m: Option<nat>, w: Waker,
                     arm: Arm, own: Owner, mark: Option<nat>)
    requires Structure(h) && c < |h.chans| && h.chans[c].cap == 0 && me != own
    requires ArmOk(h, arm, own, mark)
    ensures ArmOk(PostOffer(h, c, item, me, m, w), arm, own, mark)
  {
    PostOfferHeld(h, c, item, me, m, w, arm, own);
    hide OfferOk, WaiterOk, OffersApart, TasksOf, WaiterWakers, Held;
  }

  lemma PostOfferHeld(h: Heap, c: nat, item: Item, me: Owner, m: Option<nat>, w: Waker, arm: Arm, own: Owner)
    requires c < |h.chans| && me != own && Held(h, arm, own)
    ensures Held(PostOffer(h, c, item, me, m, w), arm, own)
  {
    hide TasksOf, WaiterWakers;
  }

  lemma PostOfferFine(h: Heap, c: nat, item: Item, me: Owner, m: Option<nat>, w: Waker,
                      arm: Arm, own: Owner, mark: Option<nat>, q: bool)
    requires Structure(h) && c < |h.chans| && h.chans[c].cap == 0 && me != own
    requires Fine(h, arm, own, mark, q)
    ensures Fine(PostOffer(h, c, item, me, m, w), arm, own, mark, q)
  {
    PostOfferArm(h, c, item, me, m, w, arm, own, mark);
    hide OffersOk, WaitersOk, OffersApart, Held;
  }

  lemma PostWaiterArm(h: Heap, c: nat, me: Owner, m: Option<nat>, w: Waker,
                     arm: Arm, own: Owner, mark: Option<nat>)
    requires Structure(h) && c < |h.chans| && h.chans[c].cap == 0 && me != own
    requires ArmOk(h, arm, own, mark)
    ensures ArmOk(PostWaiter(h, c, me, m, w), arm, own, mark)
  {
    hide OfferOk, WaiterOk, OffersApart, TasksOf, WaiterWakers;
  }

  lemma PostWaiterFine(h: Heap, c: nat, me: Owner, m: Option<nat>, w: Waker,
                      arm: Arm, own: Owner, mark: Option<nat>, q: bool)
    requires Structure(h) && c < |h.chans| && h.chans[c].cap == 0 && me != own
    requires Fine(h, arm, own, mark, q)
    ensures Fine(PostWaiter(h, c, me, m, w), arm, own, mark, q)
  {
    PostWaiterArm(h, c, me, m, w, arm, own, mark);
    hide OffersOk, WaitersOk, OffersApart, Held;
  }

  lemma ClaimFine(h: Heap, m: Option<nat>, arm: Arm, own: Owner, mark: Option<nat>, q: bool)
    requires Structure(h)
    requires Fine(h, arm, own, mark, q)
    ensures Fine(Claim(h, m), arm, own, mark, q)
  {
    KeepsArm(h, Claim(h, m), arm, own, mark);
    hide Structure, Held;
  }

  lemma RegisterRecvFine(h: Heap, c: nat, w: Waker, arm: Arm, own: Owner, mark: Option<nat>, q: bool)
    requires Structure(h) && c < |h.chans|
    requires Fine(h, arm, own, mark, q)
    ensures Fine(RegisterRecv(h, c, w), arm, own, mark, q)
  {
    KeepsArm(h, RegisterRecv(h, c, w), arm, own, mark);
    hide Structure, Held;
  }

  lemma RegisterSendFine(h: Heap, c: nat, w: Waker, arm: Arm, own: Owner, mark: Option<nat>, q: bool)
    requires Structure(h) && c < |h.chans|
    requires Fine(h, arm, own, mark, q)
    ensures Fine(RegisterSend(h, c, w), arm, own, mark, q)
  {
    KeepsArm(h, RegisterSend(h, c, w), arm, own, mark);
    hide Structure, Held;
  }

  lemma RefuseFine(h: Heap, k: nat, me: Owner, arm: Arm, own: Owner, mark: Option<nat>, q: bool)
    requires Structure(h) && k < |h.sends| && h.sends[k] == InFlight(me) && me != own
    requires Fine(h, arm, own, mark, q)
    ensures Fine(Refuse(h, k), arm, own, mark, q)
  {
    KeepsArm(h, Refuse(h, k), arm, own, mark);
    hide Structure, Held;
  }

  /** Two open offers never belong to one send. */
  lemma OpenSerials(h: Heap, a: nat, b: nat)
    requires Structure(h) && a < |h.offers| && b < |h.offers|
    requires h.offers[a].state == Open && h.offers[b].state == Open
    requires h.offers[a].item.serial == h.offers[b].item.serial
    ensures a == b
  {
    assert OfferOk(h, a) && OfferOk(h, b);
  }

  lemma CloseOffer(h: Heap, c: nat, o: nat)
    requires Structure(h) && c < |h.chans| && o < |h.offers|
    ensures OfferOk(Close(h, c), o)
  {
    var ids := h.chans[c].offers;
    var k := h.offers[o].item.serial;
    if h.offers[o].state == Open && o !in ids && k in SerialsOf(h.offers, ids) {
      var b :| b in ids && b < |h.offers| && h.offers[b].item.serial == k;
      OpenSerials(h, o, b);
    }
  }

  lemma CloseStructure(h: Heap, c: nat)
    requires Structure(h) && c < |h.chans|
    ensures Structure(Close(h, c))
  {
    forall o | 0 <= o < |h.offers| ensures OfferOk(Close(h, c), o) { CloseOffer(h, c, o); }
  }

  /** A close withdraws exactly the open offers of its channel, and takes no waiter off its queue. */
  lemma CloseWithdraws(h: Heap, c: nat)
    requires Structure(h) && c < |h.chans|
    ensures var h' := Close(h, c);
      && h'.chans[c].closed && |h'.offers| == |h.offers| && h'.waiters == h.waiters
      && (forall d :: 0 <= d < |h.chans| ==> h'.chans[d].waiters == h.chans[d].waiters)
      && (forall o :: 0 <= o < |h.offers| ==>
            h'.offers[o] == if h.offers[o].state == Open && h.offers[o].chan == c
                            then h.offers[o].(state := Withdrawn) else h.offers[o])
  {
    hide WaitersOk, OffersApart;
    forall o | 0 <= o < |h.offers|
      ensures o in h.chans[c].offers <==> h.offers[o].state == Open && h.offers[o].chan == c
    {
      assert OfferOk(h, o) && ChanOk(h, c);
    }
  }

  /** A close wakes everyone who waits on the channel. */
  lemma CloseWakes(h: Heap, c: nat)
    requires c < |h.chans| && !h.chans[c].closed
    ensures var core, woken := h.chans[c], Close(h, c).woken;
      && h.woken <= woken
      && (forall t :: Wake(t) in core.recvWakers ==> t in woken)
      && (forall t :: Wake(t) in core.sendWakers ==> t in woken)
      && (forall w :: w in core.waiters && w < |h.waiters| && h.waiters[w].waker.Wake? ==>
            h.waiters[w].waker.task in woken)
      && (forall o :: o in core.offers && o < |h.offers| && h.offers[o].waker.Wake? ==>
            h.offers[o].waker.task in woken)
  {
    var all := ReceiverWakers(h, c) + h.chans[c].sendWakers + OfferWakers(h, h.chans[c].offers);
    forall t | Wake(t) in h.chans[c].recvWakers || Wake(t) in h.chans[c].sendWakers ensures Wake(t) in all {}
    forall w | w in h.chans[c].waiters && w < |h.waiters| ensures h.waiters[w].waker in all {}
    forall o | o in h.chans[c].offers && o < |h.offers| ensures h.offers[o].waker in all {}
  }

  /** A send that posted no offer is not ended by the close. */
  lemma CloseKeepsUnposted(h: Heap, c: nat, k: nat, own: Owner)
    requires Structure(h) && c < |h.chans| && k < |h.sends| && h.sends[k] == InFlight(own)
    requires forall o :: 0 <= o < |h.offers| && h.offers[o].state == Open ==> h.offers[o].owner != own
    ensures Close(h, c).sends[k] == InFlight(own)
  {
    assert forall o :: o in h.chans[c].offers ==> OfferOk(h, o);
  }

  lemma CloseHeld(h: Heap, c: nat, arm: Arm, own: Owner)
    requires c < |h.chans| && Held(h, arm, own)
    ensures Held(Close(h, c), arm, own)
  {
    hide ReceiverWakers, OfferWakers, TasksOf, SerialsOf;
  }

  lemma CloseArm(h: Heap, c: nat, arm: Arm, own: Owner, mark: Option<nat>)
    requires Structure(h) && c < |h.chans| && ArmOk(h, arm, own, mark)
    ensures ArmOk(Close(h, c), arm, own, mark)
  {
    CloseHeld(h, c, arm, own);
    if arm.Send? && arm.offer.None? { CloseKeepsUnposted(h, c, arm.item.serial, own); }
    CloseKeepsRecords(h, c);
    hide Close, OffersOk, WaitersOk, OffersApart, Held;
  }

  /** A close changes no record but the state of its own offers, and no queue of waiters. */
  lemma CloseKeepsRecords(h: Heap, c: nat)
    requires c < |h.chans|
    ensures var h' := Close(h, c);
      && h'.waiters == h.waiters && h'.marks == h.marks
      && |h'.sends| == |h.sends| && |h'.offers| == |h.offers| && |h'.chans| == |h.chans| && h'.chans[c].closed
      && (forall d :: 0 <= d < |h.chans| ==>
            && h'.chans[d].waiters == h.chans[d].waiters && h'.chans[d].cap == h.chans[d].cap
            && (h.chans[d].closed ==> h'.chans[d].closed))
      && (forall o :: 0 <= o < |h.offers| ==>
            || h'.offers[o] == h.offers[o]
            || (o in h.chans[c].offers && h'.offers[o] == h.offers[o].(state := Withdrawn)))
  {
    hide ReceiverWakers, OfferWakers, TasksOf, SerialsOf;
  }

  lemma CloseFine(h: Heap, c: nat, arm: Arm, own: Owner, mark: Option<nat>, q: bool)
    requires Structure(h) && c < |h.chans| && Fine(h, arm, own, mark, q)
    ensures Fine(Close(h, c), arm, own, mark, q)
  {
    hide ReceiverWakers, OfferWakers, TasksOf, SerialsOf;
    CloseArm(h, c, arm, own, mark);
    if !h.chans[c].closed { CloseWakes(h, c); }
  }

  lemma TakeSlotStructure(h: Heap, w: nat)
    requires Structure(h) && w < |h.waiters|
    ensures Structure(TakeSlot(h, w))
  {}

  lemma SetWaiterWakerStructure(h: Heap, id: nat, w: Waker)
    requires Structure(h) && id < |h.waiters|
    ensures Structure(h.(waiters := h.waiters[id := h.waiters[id].(waker := w)]))
  {}

  lemma SetOfferWakerStructure(h: Heap, id: nat, w: Waker)
    requires Structure(h) && id < |h.offers|
    ensures Structure(h.(offers := h.offers[id := h.offers[id].(waker := w)]))
  {}

  lemma RegisterRecvStructure(h: Heap, c: nat, w: Waker)
    requires Structure(h) && c < |h.chans|
    ensures Structure(RegisterRecv(h, c, w))
  {}

  lemma RegisterSendStructure(h: Heap, c: nat, w: Waker)
    requires Structure(h) && c < |h.chans|
    ensures Structure(RegisterSend(h, c, w))
  {}

  lemma RefuseStructure(h: Heap, k: nat, me: Owner)
    requires Structure(h) && k < |h.sends| && h.sends[k] == InFlight(me)
    requires forall o :: 0 <= o < |h.offers| && h.offers[o].state == Open ==> h.offers[o].owner != me
    ensures Structure(Refuse(h, k))
  {}

  lemma SetWaiterWakerArm(h: Heap, id: nat, w: Waker, arm: Arm, own: Owner, mark: Option<nat>)
    requires Structure(h) && id < |h.waiters| && h.waiters[id].owner != own && ArmOk(h, arm, own, mark)
    ensures ArmOk(h.(waiters := h.waiters[id := h.waiters[id].(waker := w)]), arm, own, mark)
  {
    hide OfferOk, OffersApart;
  }

  lemma SetWaiterWakerFine(h: Heap, id: nat, w: Waker, arm: Arm, own: Owner, mark: Option<nat>, q: bool)
    requires Structure(h) && id < |h.waiters| && h.waiters[id].owner != own && Fine(h, arm, own, mark, q)
    ensures Fine(h.(waiters := h.waiters[id := h.waiters[id].(waker := w)]), arm, own, mark, q)
  {
    SetWaiterWakerArm(h, id, w, arm, own, mark);
    hide OffersOk, WaitersOk, OffersApart, Held;
  }

  lemma SetOfferWakerFine(h: Heap, id: nat, w: Waker, arm: Arm, own: Owner, mark: Option<nat>, q: bool)
    requires Structure(h) && id < |h.offers| && h.offers[id].owner != own && Fine(h, arm, own, mark, q)
    ensures Fine(h.(offers := h.offers[id := h.offers[id].(waker := w)]), arm, own, mark, q)
  {
    hide OfferOk, WaiterOk, OffersApart;
  }
}
