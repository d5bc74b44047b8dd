/**
 The state of local channels and what each channel operation does to it.

 One `Heap` holds every channel, offer, waiter and select mark of a VM;
 identifiers (indices) stand for the shared references of the program: two
 holders of one identifier see the same record.  An operation is a total
 function from the heap before to the heap after.
 */
module ChanSpec {
  import opened Basics

  type Value = int
  type Task = nat

  /** Who waits: a task, or nobody (the no-op waker of a check without waiting). */
  datatype Waker = Noop | Wake(task: Task)

  /** A case of a wait: case `idx` of the wait of `task`. */
  datatype Owner = Owner(task: Task, idx: nat)

  /** A value on its way: which send it belongs to, and the select of that send. */
  datatype Item = Item(value: Value, serial: nat, origin: Option<nat>)

  datatype OfferState = Open | Taken | Withdrawn

  /** What a send leaves in the queue of a channel without a buffer, and how that ended. */
  datatype OfferRec = OfferRec(
    item: Item, state: OfferState, waker: Waker, select: Option<nat>, chan: nat, owner: Owner)

  /** The place of a receive in such a queue; `slot` is where a send hands over its value. */
  datatype WaiterRec = WaiterRec(
    slot: Option<Item>, waker: Waker, select: Option<nat>, chan: nat, owner: Owner)

  /** The mark of one select, shared by its offers and waiters. */
  datatype MarkRec = MarkRec(claimed: bool, owner: Task)

  /**
   A channel.  `pushed`, `popped` and `putBacks` are bookkeeping the program
   does not have: what was ever pushed to the back of `buf`, what was ever
   popped from its front, and how many values were put back to the front.
   */
  datatype ChanRec = ChanRec(
    buf: seq<Item>, cap: nat, closed: bool,
    recvWakers: seq<Waker>, sendWakers: seq<Waker>,
    offers: seq<nat>, waiters: seq<nat>,
    pushed: seq<Item>, popped: seq<Item>, putBacks: nat)

  /** A channel as `with_cap` makes it. */
  function FreshChan(cap: nat): ChanRec {
    ChanRec([], cap, false, [], [], [], [], [], [], 0)
  }

  /** How a send ended: not yet, with its value accepted, or without. */
  datatype SendStatus = InFlight(owner: Owner) | Accepted | Refused

  /**
   `woken` holds the tasks that are scheduled to run.  `sends`, `accepted`
   and `handed` are bookkeeping: the status of each send by serial number,
   the items whose send was accepted, and the items that receivers hold.
   */
  datatype Heap = Heap(
    chans: seq<ChanRec>, offers: seq<OfferRec>, waiters: seq<WaiterRec>, marks: seq<MarkRec>,
    woken: set<Task>,
    sends: seq<SendStatus>, accepted: multiset<Item>, handed: multiset<Item>)

  /** One case of a wait: a receive, a send, or anything else that can become ready. */
  datatype Arm =
    | Recv(chan: nat, waiter: Option<nat>)
    | Send(chan: nat, item: Item, offer: Option<nat>, eager: bool)
    | Other(ready: bool)

  /** What polling a case found. */
  datatype Out = Pending | Received(item: Item) | RecvClosed | Sent | SendClosed | Fired

  datatype ArmStep = ArmStep(h: Heap, arm: Arm, out: Out)

  // ---- identifiers in range -------------------------------------------

  predicate ArmRefs(h: Heap, arm: Arm) {
    match arm
    case Recv(c, w) => c < |h.chans| && (w.Some? ==> w.value < |h.waiters|)
    case Send(c, _, o, _) => c < |h.chans| && (o.Some? ==> o.value < |h.offers|)
    case Other(_) => true
  }

  // ---- marks ------------------------------------------------------------

  predicate Claimed(h: Heap, mark: Option<nat>) {
    mark.Some? && mark.value < |h.marks| && h.marks[mark.value].claimed
  }

  predicate SameSelect(a: Option<nat>, b: Option<nat>) {
    a.Some? && a == b
  }

  function Claim(h: Heap, mark: Option<nat>): Heap {
    if mark.Some? && mark.value < |h.marks|
    then h.(marks := h.marks[mark.value := h.marks[mark.value].(claimed := true)])
    else h
  }

  // ---- wakers -----------------------------------------------------------

  function TasksOf(wakers: seq<Waker>): (r: set<Task>)
    ensures forall t :: t in r <==> Wake(t) in wakers
  {
    var r := set w | w in wakers && w.Wake? :: w.task;
    assert forall w :: w in wakers && w.Wake? ==> w == Wake(w.task);
    r
  }

  function WakeAll(h: Heap, wakers: seq<Waker>): Heap {
    h.(woken := h.woken + TasksOf(wakers))
  }

  function Register(list: seq<Waker>, w: Waker): seq<Waker> {
    if w in list then list else list + [w]
  }

  function WaiterWakers(h: Heap, ids: seq<nat>): (r: seq<Waker>)
    ensures forall w :: w in ids && w < |h.waiters| ==> h.waiters[w].waker in r
  {
    if ids == [] then []
    else (if ids[0] < |h.waiters| then [h.waiters[ids[0]].waker] else []) + WaiterWakers(h, ids[1..])
  }

  function OfferWakers(h: Heap, ids: seq<nat>): (r: seq<Waker>)
    ensures forall o :: o in ids && o < |h.offers| ==> h.offers[o].waker in r
  {
    if ids == [] then []
    else (if ids[0] < |h.offers| then [h.offers[ids[0]].waker] else []) + OfferWakers(h, ids[1..])
  }

  /** The wakers of every receiver waiting on `c`: plain ones, then the rendezvous waiters. */
  function ReceiverWakers(h: Heap, c: nat): seq<Waker>
    requires c < |h.chans|
  {
    h.chans[c].recvWakers + WaiterWakers(h, h.chans[c].waiters)
  }

  /** Wake every receiver waiting on `c`. */
  function WakeReceivers(h: Heap, c: nat): Heap
    requires c < |h.chans|
  {
    WakeAll(h.(chans := h.chans[c := h.chans[c].(recvWakers := [])]), ReceiverWakers(h, c))
  }

  // ---- bookkeeping ------------------------------------------------------

  function Accept(h: Heap, item: Item): Heap {
    h.(accepted := h.accepted + multiset{item},
       sends := if item.serial < |h.sends| then h.sends[item.serial := Accepted] else h.sends)
  }

  function Hand(h: Heap, item: Item): Heap {
    h.(handed := h.handed + multiset{item})
  }

  /** Record that the send `k` ended without its value being accepted. */
  function Refuse(h: Heap, k: nat): Heap {
    if k < |h.sends| && h.sends[k].InFlight? then h.(sends := h.sends[k := Refused]) else h
  }

  // ---- offers and waiters -----------------------------------------------

  /** A waiter that a send of the select `me` may fill. */
  predicate Fillable(h: Heap, w: nat, me: Option<nat>) {
    && w < |h.waiters|
    && h.waiters[w].slot == None
    && !Claimed(h, h.waiters[w].select)
    && !SameSelect(h.waiters[w].select, me)
  }

  /** An offer that a receive of the select `me` may take. */
  predicate Eligible(h: Heap, o: nat, me: Option<nat>) {
    && o < |h.offers|
    && h.offers[o].state == Open
    && !Claimed(h, h.offers[o].select)
    && !SameSelect(h.offers[o].select, me)
  }

  /** The position of the first fillable waiter among `ids`. */
  function FindWaiter(h: Heap, ids: seq<nat>, me: Option<nat>): (r: Option<nat>)
    ensures r.Some? ==> r.value < |ids| && Fillable(h, ids[r.value], me)
    ensures r.Some? ==> forall k :: 0 <= k < r.value ==> !Fillable(h, ids[k], me)
    ensures r.None? ==> forall k :: 0 <= k < |ids| ==> !Fillable(h, ids[k], me)
  {
    if ids == [] then None
    else if Fillable(h, ids[0], me) then Some(0)
    else
      var r := FindWaiter(h, ids[1..], me);
      if r.Some? then Some(r.value + 1) else None
  }

  /** The position of the first eligible offer among `ids`. */
  function FindOffer(h: Heap, ids: seq<nat>, me: Option<nat>): (r: Option<nat>)
    ensures r.Some? ==> r.value < |ids| && Eligible(h, ids[r.value], me)
    ensures r.Some? ==> forall k :: 0 <= k < r.value ==> !Eligible(h, ids[k], me)
    ensures r.None? ==> forall k :: 0 <= k < |ids| ==> !Eligible(h, ids[k], me)
  {
    if ids == [] then None
    else if Eligible(h, ids[0], me) then Some(0)
    else
      var r := FindOffer(h, ids[1..], me);
      if r.Some? then Some(r.value + 1) else None
  }

  /** Put `item` in the slot of the waiter `w` and wake it: the send is complete. */
  function Fill(h: Heap, w: nat, item: Item): Heap
    requires w < |h.waiters|
  {
    var rec := h.waiters[w];
    WakeAll(Accept(h.(waiters := h.waiters[w := rec.(slot := Some(item))]), item), [rec.waker])
  }

  /** Take the value out of the slot of the waiter `w`. */
  function TakeSlot(h: Heap, w: nat): Heap
    requires w < |h.waiters|
  {
    h.(waiters := h.waiters[w := h.waiters[w].(slot := None)])
  }

  /** Add an empty waiter to `c`'s queue. */
  function PostWaiter(h: Heap, c: nat, own: Owner, mark: Option<nat>, w: Waker): Heap
    requires c < |h.chans|
  {
    h.(waiters := h.waiters + [WaiterRec(None, w, mark, c, own)],
       chans := h.chans[c := h.chans[c].(waiters := h.chans[c].waiters + [|h.waiters|])])
  }

  /** Remove the waiter `w` from `c`'s queue (`forget`). */
  function Forget(h: Heap, c: nat, w: Option<nat>): Heap
    requires c < |h.chans|
  {
    if w.None? then h
    else h.(chans := h.chans[c := h.chans[c].(waiters := Without(h.chans[c].waiters, w.value))])
  }

  /** Add an open offer to `c`'s queue; wakes every waiting receiver. */
  function PostOffer(h: Heap, c: nat, item: Item, own: Owner, mark: Option<nat>, w: Waker): Heap
    requires c < |h.chans|
  {
    WakeReceivers(
      h.(offers := h.offers + [OfferRec(item, Open, w, mark, c, own)],
         chans := h.chans[c := h.chans[c].(offers := h.chans[c].offers + [|h.offers|])]), c)
  }

  /**
   Take the offer `o` off `c`'s queue: claim its select, wake its sender and
   hand its value out.
   */
  function TakeOffer(h: Heap, c: nat, o: nat): Heap
    requires c < |h.chans| && o < |h.offers|
  {
    Detach(Claim(h, h.offers[o].select), c, o)
  }

  function Detach(h: Heap, c: nat, o: nat): Heap
    requires c < |h.chans| && o < |h.offers|
  {
    var rec := h.offers[o];
    Hand(Accept(WakeAll(
      h.(chans := h.chans[c := h.chans[c].(offers := Without(h.chans[c].offers, o))],
         offers := h.offers[o := rec.(state := Taken)]),
      [rec.waker]), rec.item), rec.item)
  }

  /** Withdraw the open offer `o` from `c`'s queue: its send is refused. */
  function WithdrawOffer(h: Heap, c: nat, o: nat): Heap
    requires c < |h.chans| && o < |h.offers|
  {
    Refuse(
      h.(chans := h.chans[c := h.chans[c].(offers := Without(h.chans[c].offers, o))],
         offers := h.offers[o := h.offers[o].(state := Withdrawn)]),
      h.offers[o].item.serial)
  }

  // ---- the buffer -------------------------------------------------------

  /** Pop the front of `c`'s buffer and hand it out; wakes the waiting senders. */
  function PopFront(h: Heap, c: nat): Heap
    requires c < |h.chans| && h.chans[c].buf != []
  {
    var core := h.chans[c];
    WakeAll(
      Hand(h.(chans := h.chans[c := core.(buf := core.buf[1..], popped := core.popped + [core.buf[0]],
                                          sendWakers := [])]), core.buf[0]),
      core.sendWakers)
  }

  /** Push `item` at the back of `c`'s buffer; wakes the plain waiting receivers. */
  function PushBack(h: Heap, c: nat, item: Item): Heap
    requires c < |h.chans|
  {
    var core := h.chans[c];
    WakeAll(
      Accept(h.(chans := h.chans[c := core.(buf := core.buf + [item], pushed := core.pushed + [item],
                                            recvWakers := [])]), item),
      core.recvWakers)
  }

  /** Put `item` at the front of `c`'s buffer; wakes every waiting receiver. */
  function PushFront(h: Heap, c: nat, item: Item): Heap
    requires c < |h.chans|
  {
    var core := h.chans[c];
    WakeReceivers(
      h.(chans := h.chans[c := core.(buf := [item] + core.buf, putBacks := core.putBacks + 1)]), c)
  }

  function RegisterRecv(h: Heap, c: nat, w: Waker): Heap
    requires c < |h.chans|
  {
    h.(chans := h.chans[c := h.chans[c].(recvWakers := Register(h.chans[c].recvWakers, w))])
  }

  function RegisterSend(h: Heap, c: nat, w: Waker): Heap
    requires c < |h.chans|
  {
    h.(chans := h.chans[c := h.chans[c].(sendWakers := Register(h.chans[c].sendWakers, w))])
  }

  // ---- receiving --------------------------------------------------------

  /** A receive case on a buffered channel (`poll_recv`). */
  function PollBuffered(h: Heap, arm: Arm, w: Waker): ArmStep
    requires arm.Recv? && ArmRefs(h, arm)
  {
    var core := h.chans[arm.chan];
    if core.buf != [] then ArmStep(PopFront(h, arm.chan), arm, Received(core.buf[0]))
    else if core.closed then ArmStep(h, arm, RecvClosed)
    else ArmStep(RegisterRecv(h, arm.chan, w), arm, Pending)
  }

  /** A receive case on a channel without a buffer (`Receiving::poll`). */
  function PollRendezvous(h: Heap, arm: Arm, own: Owner, mark: Option<nat>, w: Waker): ArmStep
    requires arm.Recv? && ArmRefs(h, arm)
  {
    var c := arm.chan;
    var core := h.chans[c];
    var done := arm.(waiter := None);
    if arm.waiter.Some? && h.waiters[arm.waiter.value].slot.Some? then
      var item := h.waiters[arm.waiter.value].slot.value;
      ArmStep(Forget(Hand(TakeSlot(h, arm.waiter.value), item), c, arm.waiter), done, Received(item))
    else if core.buf != [] then
      ArmStep(Forget(PopFront(h, c), c, arm.waiter), done, Received(core.buf[0]))
    else
      var k := FindOffer(h, core.offers, mark);
      if k.Some? then
        var o := core.offers[k.value];
        ArmStep(Forget(TakeOffer(h, c, o), c, arm.waiter), done, Received(h.offers[o].item))
      else if core.closed then ArmStep(Forget(h, c, arm.waiter), done, RecvClosed)
      else if arm.waiter.Some? then
        var rec := h.waiters[arm.waiter.value];
        ArmStep(h.(waiters := h.waiters[arm.waiter.value := rec.(waker := w)]), arm, Pending)
      else ArmStep(PostWaiter(h, c, own, mark, w), arm.(waiter := Some(|h.waiters|)), Pending)
  }

  /** Stop waiting on a receive case (`Receiving::withdraw`). */
  function WithdrawRecv(h: Heap, arm: Arm): (Heap, Arm)
    requires arm.Recv? && ArmRefs(h, arm)
  {
    if arm.waiter.None? then (h, arm)
    else
      var slot := h.waiters[arm.waiter.value].slot;
      var h1 := Forget(TakeSlot(h, arm.waiter.value), arm.chan, arm.waiter);
      (if slot.None? then h1 else PushFront(h1, arm.chan, slot.value), arm.(waiter := None))
  }

  // ---- sending ----------------------------------------------------------

  /** A send case (`Sending::poll_local`, `poll_send`). */
  function PollSend(h: Heap, arm: Arm, own: Owner, mark: Option<nat>, w: Waker): ArmStep
    requires arm.Send? && ArmRefs(h, arm)
  {
    var c := arm.chan;
    var core := h.chans[c];
    if core.cap != 0 then
      if core.closed then ArmStep(Refuse(h, arm.item.serial), arm, SendClosed)
      else if |core.buf| < core.cap then ArmStep(PushBack(h, c, arm.item), arm, Sent)
      else ArmStep(RegisterSend(h, c, w), arm, Pending)
    else if arm.offer.Some? then
      var rec := h.offers[arm.offer.value];
      match rec.state
      case Taken => ArmStep(h, arm, Sent)
      case Withdrawn => ArmStep(h, arm, SendClosed)
      case Open => ArmStep(h.(offers := h.offers[arm.offer.value := rec.(waker := w)]), arm, Pending)
    else if core.closed then ArmStep(Refuse(h, arm.item.serial), arm, SendClosed)
    else if arm.eager then
      var k := FindWaiter(h, core.waiters, mark);
      if k.Some? then ArmStep(Fill(h, core.waiters[k.value], arm.item), arm, Sent)
      else ArmStep(h, arm, Pending)
    else ArmStep(PostOffer(h, c, arm.item, own, mark, w), arm.(offer := Some(|h.offers|)), Pending)
  }

  /** The offer of this send is taken (`Sending::delivered`). */
  predicate Delivered(h: Heap, arm: Arm) {
    arm.Send? && arm.offer.Some? && arm.offer.value < |h.offers| && h.offers[arm.offer.value].state == Taken
  }

  /** Stop waiting on a send case (`Sending::withdraw`, then the drop of its value). */
  function WithdrawSend(h: Heap, arm: Arm): (Heap, Arm)
    requires arm.Send? && ArmRefs(h, arm)
  {
    if arm.offer.None? then (Refuse(h, arm.item.serial), arm)
    else if h.offers[arm.offer.value].state != Open then (h, arm)
    else (WithdrawOffer(h, arm.chan, arm.offer.value), arm.(offer := None))
  }

  // ---- one case ---------------------------------------------------------

  function PollArm(h: Heap, arm: Arm, own: Owner, mark: Option<nat>, w: Waker): ArmStep
    requires ArmRefs(h, arm)
  {
    match arm
    case Recv(c, _) =>
      if h.chans[c].cap != 0 then PollBuffered(h, arm, w) else PollRendezvous(h, arm, own, mark, w)
    case Send(_, _, _, _) => PollSend(h, arm, own, mark, w)
    case Other(ready) => ArmStep(h, arm, if ready then Fired else Pending)
  }

  function WithdrawArm(h: Heap, arm: Arm): (Heap, Arm)
    requires ArmRefs(h, arm)
  {
    match arm
    case Recv(_, _) => WithdrawRecv(h, arm)
    case Send(_, _, _, _) => WithdrawSend(h, arm)
    case Other(_) => (h, arm)
  }

  // ---- operations that do not wait --------------------------------------

  datatype TryOut = Got(item: Item) | Empty | Closed | Done | Full

  /** `try_recv`. */
  function TryRecv(h: Heap, c: nat): (Heap, TryOut)
    requires c < |h.chans|
  {
    var core := h.chans[c];
    if core.buf != [] then (PopFront(h, c), Got(core.buf[0]))
    else
      var k := if core.cap == 0 then FindOffer(h, core.offers, None) else None;
      if k.Some? then (TakeOffer(h, c, core.offers[k.value]), Got(h.offers[core.offers[k.value]].item))
      else (h, if core.closed then Closed else Empty)
  }

  /** `try_send` of `v` by `t`, as a new send. */
  function TrySend(h: Heap, t: Task, c: nat, v: Value): (Heap, TryOut)
    requires c < |h.chans|
  {
    var core := h.chans[c];
    var item := Item(v, |h.sends|, None);
    var accepting := h.(sends := h.sends + [InFlight(Owner(t, 0))]);
    var refusing := h.(sends := h.sends + [Refused]);
    if core.closed then (refusing, Closed)
    else if core.cap == 0 then
      var k := FindWaiter(h, core.waiters, None);
      if k.Some? then (Fill(accepting, core.waiters[k.value], item), Done) else (refusing, Full)
    else if |core.buf| >= core.cap then (refusing, Full)
    else (PushBack(accepting, c, item), Done)
  }

  /** The serials of the sends behind the offers `ids`. */
  function SerialsOf(offers: seq<OfferRec>, ids: seq<nat>): set<nat> {
    set o | o in ids && o < |offers| :: offers[o].item.serial
  }

  function WithdrawEach(offers: seq<OfferRec>, ids: seq<nat>): (r: seq<OfferRec>)
    ensures |r| == |offers|
    ensures forall o :: 0 <= o < |r| ==>
      r[o] == if o in ids then offers[o].(state := Withdrawn) else offers[o]
  {
    seq(|offers|, o requires 0 <= o < |offers| =>
      if o in ids then offers[o].(state := Withdrawn) else offers[o])
  }

  function RefuseEach(sends: seq<SendStatus>, serials: set<nat>): (r: seq<SendStatus>)
    ensures |r| == |sends|
    ensures forall k :: 0 <= k < |r| ==> r[k] == if k in serials then Refused else sends[k]
  {
    seq(|sends|, k requires 0 <= k < |sends| => if k in serials then Refused else sends[k])
  }

  /** `close`: withdraws the open offers and wakes everyone waiting. */
  function Close(h: Heap, c: nat): Heap
    requires c < |h.chans|
  {
    var core := h.chans[c];
    if core.closed then h
    else
      WakeAll(
        h.(chans := h.chans[c := core.(closed := true, recvWakers := [], sendWakers := [], offers := [])],
           offers := WithdrawEach(h.offers, core.offers),
           sends := RefuseEach(h.sends, SerialsOf(h.offers, core.offers))),
        ReceiverWakers(h, c) + core.sendWakers + OfferWakers(h, core.offers))
  }

  /** `unrecv`: a received value that reached nobody returns to the channel it came from. */
  function Unrecv(h: Heap, c: nat, item: Item): Heap
    requires c < |h.chans|
  {
    PushFront(h.(handed := h.handed - multiset{item}), c, item)
  }
}
