/** Values arrive as they were sent: what anybody receives is what some call sent, unaltered. */
module SelectValues {
  import opened Basics
  import opened ChanSpec
  import opened ChanLedger
  import opened SelectSpec
  import opened SelectTheorems

  /** What one case of a call sends, and where to; a case that sends nothing takes a serial number too. */
  datatype Posting = Nothing | Posting(chan: nat, value: Value)

  function PostingOf(c: Case): Posting {
    match c
    case SendCase(d, v) => Posting(d, v)
    case _ => Nothing
  }

  function PostingsOf(cases: seq<Case>): (r: seq<Posting>)
    ensures |r| == |cases| && forall i :: 0 <= i < |r| ==> r[i] == PostingOf(cases[i])
  {
    seq(|cases|, i requires 0 <= i < |cases| => PostingOf(cases[i]))
  }

  /** What an operation sends: the arguments of its call. */
  function OpSends(op: Op): seq<Posting> {
    match op
    case StartPlain(_, c) => [PostingOf(c)]
    case StartSelect(_, cases, _) => PostingsOf(cases)
    case CheckNow(_, cases, _) => PostingsOf(cases)
    case DoTrySend(_, c, v) => [Posting(c, v)]
    case _ => []
  }

  /** Everything that a run sends, by serial number. */
  function RunSends(ops: seq<Op>): seq<Posting> {
    if ops == [] then [] else OpSends(ops[0]) + RunSends(ops[1..])
  }

  /** The item is the value of the send with its serial number. */
  ghost predicate Known(log: seq<Posting>, item: Item) {
    item.serial < |log| && log[item.serial].Posting? && log[item.serial].value == item.value
  }

  ghost predicate KnownOn(log: seq<Posting>, item: Item, c: nat) {
    Known(log, item) && log[item.serial].chan == c
  }

  ghost predicate ArmKnown(log: seq<Posting>, arm: Arm) {
    arm.Send? ==> KnownOn(log, arm.item, arm.chan)
  }

  ghost predicate ArmsKnown(log: seq<Posting>, arms: seq<Arm>) {
    forall i {:trigger arms[i]} :: 0 <= i < |arms| ==> ArmKnown(log, arms[i])
  }

  ghost predicate HeapKnown(log: seq<Posting>, h: Heap) {
    && |h.sends| == |log|
    && (forall o {:trigger h.offers[o]} :: 0 <= o < |h.offers| ==> KnownOn(log, h.offers[o].item, h.offers[o].chan))
    && (forall x: Item :: x in h.accepted ==> Known(log, x))
  }

  ghost predicate AllKnown(log: seq<Posting>, w: World) {
    HeapKnown(log, w.h) && forall t :: t in w.waits ==> ArmsKnown(log, w.waits[t].arms)
  }

  // ---- one case ------------------------------------------------------------------------

  lemma PollArmKnown(log: seq<Posting>, h: Heap, arm: Arm, me: Owner, mark: Option<nat>, w: Waker)
    requires HeapKnown(log, h) && ArmKnown(log, arm) && ArmRefs(h, arm)
    ensures var s := PollArm(h, arm, me, mark, w); HeapKnown(log, s.h) && ArmKnown(log, s.arm)
  {
    hide TasksOf, Without, WaiterWakers, Known;
    if arm.Recv? && h.chans[arm.chan].cap == 0 { RendezvousKnown(log, h, arm, me, mark, w); }
    if arm.Send? { SendKnown(log, h, arm, me, mark, w); }
    hide PollRendezvous, PollSend;
  }

  /** The books are the same, and the offers but for their states and wakers. */
  ghost predicate SamePostings(h: Heap, h1: Heap) {
    && |h1.sends| == |h.sends| && h1.accepted == h.accepted && |h1.offers| == |h.offers|
    && forall o {:trigger h1.offers[o]} :: 0 <= o < |h.offers| ==>
         h1.offers[o].item == h.offers[o].item && h1.offers[o].chan == h.offers[o].chan
  }

  lemma SameKnown(log: seq<Posting>, h: Heap, h1: Heap)
    requires HeapKnown(log, h) && SamePostings(h, h1)
    ensures HeapKnown(log, h1)
  {
    hide Known;
  }

  lemma TakeOfferKnown(log: seq<Posting>, h: Heap, c: nat, o: nat)
    requires HeapKnown(log, h) && c < |h.chans| && o < |h.offers|
    ensures HeapKnown(log, TakeOffer(h, c, o)) && |TakeOffer(h, c, o).chans| == |h.chans|
  {
    hide TasksOf, Without;
    assert KnownOn(log, h.offers[o].item, h.offers[o].chan);
  }

  lemma RendezvousKnown(log: seq<Posting>, h: Heap, arm: Arm, me: Owner, mark: Option<nat>, w: Waker)
    requires HeapKnown(log, h) && arm.Recv? && ArmRefs(h, arm)
    ensures HeapKnown(log, PollRendezvous(h, arm, me, mark, w).h) && PollRendezvous(h, arm, me, mark, w).arm.Recv?
  {
    hide TasksOf, Without, HeapKnown, TakeOffer;
    var core := h.chans[arm.chan];
    var h1 := PollRendezvous(h, arm, me, mark, w).h;
    var k := FindOffer(h, core.offers, mark);
    if (arm.waiter.Some? && h.waiters[arm.waiter.value].slot.Some?) || core.buf != [] || k.None? {
      assert SamePostings(h, h1);
      SameKnown(log, h, h1);
    } else {
      TakeOfferKnown(log, h, arm.chan, core.offers[k.value]);
      SameKnown(log, TakeOffer(h, arm.chan, core.offers[k.value]), h1);
    }
  }

  lemma SendKnown(log: seq<Posting>, h: Heap, arm: Arm, me: Owner, mark: Option<nat>, w: Waker)
    requires HeapKnown(log, h) && arm.Send? && ArmKnown(log, arm) && ArmRefs(h, arm)
    ensures var s := PollSend(h, arm, me, mark, w); HeapKnown(log, s.h) && ArmKnown(log, s.arm)
  {
    hide TasksOf, WaiterWakers, FindWaiter;
  }

  lemma WithdrawArmKnown(log: seq<Posting>, h: Heap, arm: Arm)
    requires HeapKnown(log, h) && ArmRefs(h, arm)
    ensures HeapKnown(log, WithdrawArm(h, arm).0)
  {
    hide TasksOf, Without, WaiterWakers, Known;
  }

  // ---- waits ---------------------------------------------------------------------------

  lemma {:induction false} WithdrawFromKnown(log: seq<Posting>, h: Heap, arms: seq<Arm>, j: nat, chosen: Option<nat>)
    requires HeapKnown(log, h)
    ensures HeapKnown(log, WithdrawFrom(h, arms, j, chosen))
    decreases |arms| - j
  {
    hide HeapKnown, WithdrawArm;
    if j < |arms| {
      if chosen == Some(j) || !ArmRefs(h, arms[j]) {
        WithdrawFromKnown(log, h, arms, j + 1, chosen);
      } else {
        WithdrawArmKnown(log, h, arms[j]);
        WithdrawFromKnown(log, WithdrawArm(h, arms[j]).0, arms, j + 1, chosen);
      }
    }
  }

  lemma ResolveKnown(log: seq<Posting>, h: Heap, wait: Wait, chosen: nat)
    requires HeapKnown(log, h)
    ensures HeapKnown(log, Resolve(h, wait, chosen))
  {
    WithdrawFromKnown(log, Claim(h, wait.mark), wait.arms, 0, Some(chosen));
  }

  lemma {:induction false} PollFromKnown(log: seq<Posting>, h: Heap, t: Task, wait: Wait, k: nat, w: Waker)
    requires HeapKnown(log, h) && ArmsKnown(log, wait.arms)
    ensures var (h', wait', _) := PollFrom(h, t, wait, k, w); HeapKnown(log, h') && ArmsKnown(log, wait'.arms)
    decreases |wait.arms| - k
  {
    hide HeapKnown, PollArm, Resolve, ArmKnown;
    if k < |wait.arms| {
      var i := Turn(wait.start, k, |wait.arms|);
      if !ArmRefs(h, wait.arms[i]) {
        PollFromKnown(log, h, t, wait, k + 1, w);
      } else {
        var s := PollArm(h, wait.arms[i], Owner(t, i), wait.mark, w);
        var wait1 := wait.(arms := wait.arms[i := s.arm]);
        PollArmKnown(log, h, wait.arms[i], Owner(t, i), wait.mark, w);
        if s.out.Pending? { PollFromKnown(log, s.h, t, wait1, k + 1, w); } else { ResolveKnown(log, s.h, wait1, i); }
      }
    }
  }

  lemma PollWaitKnown(log: seq<Posting>, h: Heap, t: Task, wait: Wait, w: Waker)
    requires HeapKnown(log, h) && ArmsKnown(log, wait.arms)
    ensures var (h', wait', _) := PollWait(h, t, wait, w); HeapKnown(log, h') && ArmsKnown(log, wait'.arms)
  {
    hide HeapKnown, ArmsKnown, PollFrom, Resolve;
    var d := FirstDelivered(h, wait.arms);
    if d.Some? { ResolveKnown(log, h, wait, d.value); } else { PollFromKnown(log, h, t, wait, 0, w); }
  }

  lemma PollNowKnown(log: seq<Posting>, h: Heap, t: Task, wait: Wait)
    requires HeapKnown(log, h) && ArmsKnown(log, wait.arms)
    ensures HeapKnown(log, PollNow(h, t, wait).0)
  {
    hide ArmsKnown, PollWait, WithdrawFrom;
    PollWaitKnown(log, h, t, wait, Noop);
    var (h1, wait1, out) := PollWait(h, t, wait, Noop);
    WithdrawFromKnown(log, Claim(h1, wait.mark), wait1.arms, 0, None);
  }

  lemma CancelKnown(log: seq<Posting>, h: Heap, wait: Wait)
    requires HeapKnown(log, h)
    ensures HeapKnown(log, CancelWait(h, wait).0)
  {
    hide HeapKnown, Resolve, WithdrawFrom;
    var d := FirstDelivered(h, wait.arms);
    if d.Some? { ResolveKnown(log, h, wait, d.value); }
    WithdrawFromKnown(log, h, wait.arms, 0, None);
  }

  // ---- operations ----------------------------------------------------------------------

  /** New serial numbers change nothing about older sends. */
  lemma LogGrows(log: seq<Posting>, more: seq<Posting>, w: World)
    requires AllKnown(log, w)
    ensures (forall o :: 0 <= o < |w.h.offers| ==> KnownOn(log + more, w.h.offers[o].item, w.h.offers[o].chan))
    ensures (forall x: Item :: x in w.h.accepted ==> Known(log + more, x))
    ensures forall t :: t in w.waits ==> ArmsKnown(log + more, w.waits[t].arms)
  {
    forall t | t in w.waits ensures ArmsKnown(log + more, w.waits[t].arms) {
      assert ArmsKnown(log, w.waits[t].arms);
    }
  }

  /** The cases of a new wait send what its call sends. */
  lemma BuiltKnown(log: seq<Posting>, cases: seq<Case>, mark: Option<nat>, eager: bool)
    ensures ArmsKnown(log + PostingsOf(cases), BuildArms(cases, |log|, mark, eager))
  {
    var arms := BuildArms(cases, |log|, mark, eager);
    var after := log + PostingsOf(cases);
    forall i | 0 <= i < |arms| ensures ArmKnown(after, arms[i]) {
      assert after[|log| + i] == PostingsOf(cases)[i];
    }
  }

  lemma TrySendKnown(log: seq<Posting>, h: Heap, t: Task, c: nat, v: Value)
    requires c < |h.chans| && |h.sends| == |log| && HeapKnown(log + [Posting(c, v)], h.(sends := h.sends + [Refused]))
    ensures HeapKnown(log + [Posting(c, v)], TrySend(h, t, c, v).0)
  {
    hide TasksOf, FindWaiter;
  }

  lemma TryRecvKnown(log: seq<Posting>, h: Heap, c: nat)
    requires HeapKnown(log, h) && c < |h.chans|
    ensures HeapKnown(log, TryRecv(h, c).0)
  {
    hide TasksOf, HeapKnown, TakeOffer;
    var core := h.chans[c];
    var k := FindOffer(h, core.offers, None);
    if core.buf == [] && core.cap == 0 && k.Some? { TakeOfferKnown(log, h, c, core.offers[k.value]); }
    else { SameKnown(log, h, TryRecv(h, c).0); }
  }

  lemma CloseKnown(log: seq<Posting>, h: Heap, c: nat)
    requires HeapKnown(log, h) && c < |h.chans|
    ensures HeapKnown(log, Close(h, c))
  {
    hide TasksOf, HeapKnown, WaiterWakers, OfferWakers, SerialsOf;
    SameKnown(log, h, Close(h, c));
  }

  lemma UnrecvKnown(log: seq<Posting>, h: Heap, c: nat, item: Item)
    requires HeapKnown(log, h) && c < |h.chans|
    ensures HeapKnown(log, Unrecv(h, c, item))
  {
    hide TasksOf, HeapKnown, WaiterWakers;
    SameKnown(log, h, Unrecv(h, c, item));
  }

  lemma ApplyKnown(log: seq<Posting>, w: World, op: Op)
    requires AllKnown(log, w) && Enabled(w, op)
    ensures AllKnown(log + OpSends(op), Apply(w, op))
  {
    hide PollWait, PollNow, CancelWait, WithdrawFrom, TrySend, TryRecv, Close, Unrecv, KnownOn, Known, ArmsKnown;
    hide BuildArms, ArmKnown;
    LogGrows(log, OpSends(op), w);
    assert log + [] == log;
    match op
    case StartPlain(t, c) =>
      assert PostingsOf([c]) == [PostingOf(c)];
      BuiltKnown(log, [c], None, false);
    case StartSelect(t, cases, start) => BuiltKnown(log, cases, Some(|w.h.marks|), false);
    case CheckNow(t, cases, start) =>
      BuiltKnown(log, cases, Some(|w.h.marks|), true);
      var (h1, wait) := NewWait(AddMark(w.h, t), t, cases, start, Some(|w.h.marks|), true);
      PollNowKnown(log + OpSends(op), h1, t, wait);
    case Poll(t) => PollWaitKnown(log, Asleep(w.h, t), t, w.waits[t], Wake(t));
    case Cancel(t) => CancelKnown(log, w.h, w.waits[t]);
    case Drop(t) => WithdrawFromKnown(log, w.h, w.waits[t].arms, 0, None);
    case MakeReady(t, i) => ReadyKnown(log, w.waits[t].arms, i);
    case DoTrySend(t, c, v) => TrySendKnown(log, w.h, t, c, v);
    case DoTryRecv(c) => TryRecvKnown(log, w.h, c);
    case DoClose(c) => CloseKnown(log, w.h, c);
    case PutBack(c, item) => UnrecvKnown(log, w.h, c, item);
    case NewChan(_) =>
  }

  lemma ReadyKnown(log: seq<Posting>, arms: seq<Arm>, i: nat)
    requires ArmsKnown(log, arms) && i < |arms|
    ensures ArmsKnown(log, arms[i := Other(true)])
  {
  }

  lemma {:induction false} RunKnown(log: seq<Posting>, w: World, ops: seq<Op>, w': World)
    requires AllKnown(log, w) && RunsTo(w, ops, w')
    ensures AllKnown(log + RunSends(ops), w')
    decreases |ops|
  {
    hide AllKnown, Apply, Enabled, OpSends;
    if ops == [] {
      assert log + [] == log;
    } else {
      ApplyKnown(log, w, ops[0]);
      RunKnown(log + OpSends(ops[0]), Apply(w, ops[0]), ops[1..], w');
      assert log + OpSends(ops[0]) + RunSends(ops[1..]) == log + RunSends(ops);
    }
  }

  /**
   In every run, a value that a receiver holds, or that a channel stores, is
   the value that some call of that run was given to send, by its serial number.
   */
  lemma ReceivedAsSent(ops: seq<Op>, w: World, x: Item)
    requires RunsTo(Init(), ops, w) && w.h.handed[x] + Stored(w.h, x) > 0
    ensures Known(RunSends(ops), x)
  {
    RunKnown([], Init(), ops, w);
    assert [] + RunSends(ops) == RunSends(ops);
    hide Stored, Known;
    assert Reachable(w);
    ValuesConserved(w, x);
  }

  /** An offer on a channel carries what some call was given to send to that channel. */
  lemma OfferedAsSent(ops: seq<Op>, w: World, o: nat)
    requires RunsTo(Init(), ops, w) && o < |w.h.offers|
    ensures KnownOn(RunSends(ops), w.h.offers[o].item, w.h.offers[o].chan)
  {
    RunKnown([], Init(), ops, w);
    assert [] + RunSends(ops) == RunSends(ops);
  }

  /** A new select, or plain wait, has the cases that it was called with, on their channels. */
  lemma StartsAsCalled(w: World, op: Op)
    requires Enabled(w, op) && (op.StartSelect? || op.StartPlain?)
    ensures var cases := if op.StartPlain? then [op.plain] else op.cases;
      var w1 := Apply(w, op);
      && op.task in w1.waits && op.task in w1.h.woken && |w1.waits[op.task].arms| == |cases|
      && (op.StartSelect? ==> w1.waits[op.task].start == op.start && w1.waits[op.task].mark == Some(|w.h.marks|))
      && (forall i :: 0 <= i < |cases| ==>
            match (cases[i], w1.waits[op.task].arms[i])
            case (RecvCase(c), Recv(d, None)) => d == c
            case (SendCase(c, v), Send(d, item, None, false)) => d == c && item.value == v
            case (OtherCase(ready), Other(fired)) => fired == ready
            case _ => false)
      && w1.h.chans == w.h.chans && w1.h.offers == w.h.offers && w1.h.waiters == w.h.waiters
      && w1.h.accepted == w.h.accepted && w1.h.handed == w.h.handed
  {
  }
}
