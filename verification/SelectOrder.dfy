/** Queues are in order of arrival: receives take the oldest offer, sends fill the oldest waiter. */
module SelectOrder {
  import opened Basics
  import opened ChanSpec
  import opened SelectSpec
  import opened SelectTheorems

  /** Identifiers are given out in order; `n` were given out so far. */
  ghost predicate Ordered(q: seq<nat>, n: nat) {
    && (forall i, j :: 0 <= i < j < |q| ==> q[i] < q[j])
    && (forall x :: x in q ==> x < n)
  }

  ghost predicate QueuesOk(h: Heap) {
    forall c {:trigger h.chans[c]} :: 0 <= c < |h.chans| ==>
      Ordered(h.chans[c].offers, |h.offers|) && Ordered(h.chans[c].waiters, |h.waiters|)
  }

  lemma FirstOrdered(x: nat, rest: seq<nat>, n: nat)
    requires Ordered(rest, n) && x < n && forall y :: y in rest ==> x < y
    ensures Ordered([x] + rest, n)
  {
    var q := [x] + rest;
    forall i, j | 0 <= i < j < |q| ensures q[i] < q[j] {
      assert q[j] == rest[j - 1] && rest[j - 1] in rest;
      if i > 0 { assert q[i] == rest[i - 1]; }
    }
  }

  lemma LastOrdered(q: seq<nat>, n: nat, n': nat)
    requires Ordered(q, n) && n < n'
    ensures Ordered(q + [n], n')
  {
    var q' := q + [n];
    forall i, j | 0 <= i < j < |q'| ensures q'[i] < q'[j] {
      assert q'[i] == q[i] && q[i] in q;
    }
  }

  lemma {:induction false} WithoutOrdered(q: seq<nat>, x: nat, n: nat)
    requires Ordered(q, n)
    ensures Ordered(Without(q, x), n)
  {
    if q != [] {
      var rest := q[1..];
      assert forall y :: y in rest ==> y in q;
      assert Ordered(rest, n) by { assert forall i :: 0 <= i < |rest| ==> rest[i] == q[i + 1]; }
      forall y | y in rest ensures q[0] < y {
        var i :| 0 <= i < |rest| && rest[i] == y;
        assert q[i + 1] == y;
      }
      WithoutOrdered(rest, x, n);
      assert q[0] in q;
      FirstOrdered(q[0], Without(rest, x), n);
    }
  }

  /** One queue changed: an identifier left it, or a new one was added at its end. */
  ghost predicate QueueStep(q: seq<nat>, q': seq<nat>, n: nat, n': nat) {
    && n <= n'
    && (q' == q || q' == [] || (q' == q + [n] && n < n') || exists x: nat :: q' == Without(q, x))
  }

  lemma QueueStepOrdered(q: seq<nat>, q': seq<nat>, n: nat, n': nat)
    requires Ordered(q, n) && QueueStep(q, q', n, n')
    ensures Ordered(q', n')
  {
    if q' == q + [n] && n < n' {
      LastOrdered(q, n, n');
    } else if q' != q && q' != [] {
      var x: nat :| q' == Without(q, x);
      WithoutOrdered(q, x, n);
    }
  }

  ghost predicate QueueSteps(h: Heap, h': Heap) {
    && |h'.chans| == |h.chans| && |h.offers| <= |h'.offers| && |h.waiters| <= |h'.waiters|
    && forall c {:trigger h'.chans[c]} :: 0 <= c < |h.chans| ==>
         && QueueStep(h.chans[c].offers, h'.chans[c].offers, |h.offers|, |h'.offers|)
         && QueueStep(h.chans[c].waiters, h'.chans[c].waiters, |h.waiters|, |h'.waiters|)
  }

  lemma StepsOk(h: Heap, h': Heap)
    requires QueuesOk(h) && QueueSteps(h, h')
    ensures QueuesOk(h')
  {
    hide Ordered, QueueStep;
    forall c | 0 <= c < |h'.chans|
      ensures Ordered(h'.chans[c].offers, |h'.offers|) && Ordered(h'.chans[c].waiters, |h'.waiters|)
    {
      assert h.chans[c] == h.chans[c];
      QueueStepOrdered(h.chans[c].offers, h'.chans[c].offers, |h.offers|, |h'.offers|);
      QueueStepOrdered(h.chans[c].waiters, h'.chans[c].waiters, |h.waiters|, |h'.waiters|);
    }
  }

  // ---- one case ------------------------------------------------------------------------

  /** The queue of waiters is as it was, and so is every other queue of offers than that of `c`. */
  ghost predicate OffersStep(h: Heap, h1: Heap) {
    && |h1.chans| == |h.chans| && |h1.offers| == |h.offers| && |h1.waiters| == |h.waiters|
    && forall d {:trigger h1.chans[d]} :: 0 <= d < |h.chans| ==>
         h1.chans[d].waiters == h.chans[d].waiters
         && QueueStep(h.chans[d].offers, h1.chans[d].offers, |h.offers|, |h.offers|)
  }

  lemma ForgetOrder(h: Heap, h1: Heap, c: nat, w: Option<nat>)
    requires OffersStep(h, h1) && c < |h.chans|
    ensures QueueSteps(h, Forget(h1, c, w))
  {
    hide Without;
  }

  lemma TakeOfferOrder(h: Heap, c: nat, o: nat)
    requires c < |h.chans| && o < |h.offers|
    ensures OffersStep(h, TakeOffer(h, c, o))
  {
    hide Without, TasksOf;
  }

  lemma RendezvousOrder(h: Heap, arm: Arm, me: Owner, mark: Option<nat>, w: Waker)
    requires arm.Recv? && ArmRefs(h, arm)
    ensures QueueSteps(h, PollRendezvous(h, arm, me, mark, w).h)
  {
    hide OffersStep, QueueSteps, Forget, TakeOffer, PopFront, PostWaiter, TakeSlot;
    var c := arm.chan;
    var core := h.chans[c];
    if arm.waiter.Some? && h.waiters[arm.waiter.value].slot.Some? {
      var h1 := Hand(TakeSlot(h, arm.waiter.value), h.waiters[arm.waiter.value].slot.value);
      SlotOrder(h, arm.waiter.value, h.waiters[arm.waiter.value].slot.value);
      ForgetOrder(h, h1, c, arm.waiter);
    } else if core.buf != [] {
      PopFrontOrder(h, c);
      ForgetOrder(h, PopFront(h, c), c, arm.waiter);
    } else {
      var k := FindOffer(h, core.offers, mark);
      if k.Some? {
        TakeOfferOrder(h, c, core.offers[k.value]);
        ForgetOrder(h, TakeOffer(h, c, core.offers[k.value]), c, arm.waiter);
      } else if core.closed {
        SameOrder(h);
        ForgetOrder(h, h, c, arm.waiter);
      } else {
        WaitOrder(h, arm, me, mark, w);
      }
    }
  }

  lemma SlotOrder(h: Heap, w: nat, item: Item)
    requires w < |h.waiters|
    ensures OffersStep(h, Hand(TakeSlot(h, w), item))
  {
  }

  lemma PopFrontOrder(h: Heap, c: nat)
    requires c < |h.chans| && h.chans[c].buf != []
    ensures OffersStep(h, PopFront(h, c))
  {
    hide TasksOf;
  }

  lemma SameOrder(h: Heap)
    ensures OffersStep(h, h) && QueueSteps(h, h)
  {
  }

  lemma WaitOrder(h: Heap, arm: Arm, me: Owner, mark: Option<nat>, w: Waker)
    requires arm.Recv? && ArmRefs(h, arm) && PollRendezvous(h, arm, me, mark, w).out.Pending?
    ensures QueueSteps(h, PollRendezvous(h, arm, me, mark, w).h)
  {
    hide Forget, TakeOffer, PopFront, FindOffer, Without;
  }

  lemma SendOrder(h: Heap, arm: Arm, me: Owner, mark: Option<nat>, w: Waker)
    requires arm.Send? && ArmRefs(h, arm)
    ensures QueueSteps(h, PollSend(h, arm, me, mark, w).h)
  {
    hide TasksOf, FindWaiter, PostOffer, Fill, PushBack;
    var c := arm.chan;
    var core := h.chans[c];
    PostOfferOrder(h, c, arm.item, me, mark, w);
    if core.cap != 0 && !core.closed && |core.buf| < core.cap { PushBackOrder(h, c, arm.item); }
    var k := FindWaiter(h, core.waiters, mark);
    if k.Some? { FillOrder(h, core.waiters[k.value], arm.item); }
  }

  lemma PostOfferOrder(h: Heap, c: nat, item: Item, own: Owner, mark: Option<nat>, w: Waker)
    requires c < |h.chans|
    ensures QueueSteps(h, PostOffer(h, c, item, own, mark, w))
  {
    hide TasksOf, WaiterWakers;
  }

  lemma PushBackOrder(h: Heap, c: nat, item: Item)
    requires c < |h.chans|
    ensures QueueSteps(h, PushBack(h, c, item))
  {
    hide TasksOf;
  }

  lemma FillOrder(h: Heap, w: nat, item: Item)
    requires w < |h.waiters|
    ensures QueueSteps(h, Fill(h, w, item))
  {
    hide TasksOf;
  }

  lemma PollArmOrder(h: Heap, arm: Arm, me: Owner, mark: Option<nat>, w: Waker)
    requires ArmRefs(h, arm)
    ensures QueueSteps(h, PollArm(h, arm, me, mark, w).h)
  {
    hide PollRendezvous, PollSend, TasksOf, Without;
    match arm
    case Recv(c, _) => if h.chans[c].cap == 0 { RendezvousOrder(h, arm, me, mark, w); }
    case Send(_, _, _, _) => SendOrder(h, arm, me, mark, w);
    case Other(_) =>
  }

  lemma WithdrawArmOrder(h: Heap, arm: Arm)
    requires ArmRefs(h, arm)
    ensures QueueSteps(h, WithdrawArm(h, arm).0)
  {
    hide Without, TasksOf, PushFront, Forget, TakeSlot, OffersStep;
    SameOrder(h);
    if arm.Recv? && arm.waiter.Some? {
      var rec := h.waiters[arm.waiter.value];
      var h1 := TakeSlot(h, arm.waiter.value);
      EmptySlotOrder(h, arm.waiter.value);
      ForgetOrder(h, h1, arm.chan, arm.waiter);
      if rec.slot.Some? { PushFrontOrder(h, Forget(h1, arm.chan, arm.waiter), arm.chan, rec.slot.value); }
    }
  }

  lemma EmptySlotOrder(h: Heap, w: nat)
    requires w < |h.waiters|
    ensures OffersStep(h, TakeSlot(h, w))
  {
  }

  lemma PushFrontOrder(h: Heap, h1: Heap, c: nat, item: Item)
    requires QueueSteps(h, h1) && c < |h1.chans|
    ensures QueueSteps(h, PushFront(h1, c, item))
  {
    hide TasksOf, WaiterWakers, QueueStep;
  }

  // ---- waits and runs -------------------------------------------------------------------

  lemma {:induction false} WithdrawFromOrder(h: Heap, arms: seq<Arm>, j: nat, chosen: Option<nat>)
    requires QueuesOk(h)
    ensures QueuesOk(WithdrawFrom(h, arms, j, chosen))
    decreases |arms| - j
  {
    hide QueuesOk, WithdrawArm, QueueSteps;
    if j < |arms| {
      if chosen == Some(j) || !ArmRefs(h, arms[j]) {
        WithdrawFromOrder(h, arms, j + 1, chosen);
      } else {
        var h1 := WithdrawArm(h, arms[j]).0;
        WithdrawArmOrder(h, arms[j]);
        StepsOk(h, h1);
        WithdrawFromOrder(h1, arms, j + 1, chosen);
      }
    }
  }

  lemma ClaimOrder(h: Heap, mark: Option<nat>)
    requires QueuesOk(h)
    ensures QueuesOk(Claim(h, mark))
  {
    hide Ordered;
  }

  lemma ResolveOrder(h: Heap, wait: Wait, chosen: nat)
    requires QueuesOk(h)
    ensures QueuesOk(Resolve(h, wait, chosen))
  {
    hide QueuesOk;
    ClaimOrder(h, wait.mark);
    WithdrawFromOrder(Claim(h, wait.mark), wait.arms, 0, Some(chosen));
  }

  lemma {:induction false} PollFromOrder(h: Heap, t: Task, wait: Wait, k: nat, w: Waker)
    requires QueuesOk(h)
    ensures QueuesOk(PollFrom(h, t, wait, k, w).0)
    decreases |wait.arms| - k
  {
    hide QueuesOk, PollArm, QueueSteps, Resolve;
    if k < |wait.arms| {
      var i := Turn(wait.start, k, |wait.arms|);
      if !ArmRefs(h, wait.arms[i]) {
        PollFromOrder(h, t, wait, k + 1, w);
      } else {
        var s := PollArm(h, wait.arms[i], Owner(t, i), wait.mark, w);
        var wait1 := wait.(arms := wait.arms[i := s.arm]);
        PollArmOrder(h, wait.arms[i], Owner(t, i), wait.mark, w);
        StepsOk(h, s.h);
        if s.out.Pending? { PollFromOrder(s.h, t, wait1, k + 1, w); } else { ResolveOrder(s.h, wait1, i); }
      }
    }
  }

  lemma PollWaitOrder(h: Heap, t: Task, wait: Wait, w: Waker)
    requires QueuesOk(h)
    ensures QueuesOk(PollWait(h, t, wait, w).0)
  {
    hide QueuesOk, PollFrom, Resolve;
    var d := FirstDelivered(h, wait.arms);
    if d.Some? { ResolveOrder(h, wait, d.value); } else { PollFromOrder(h, t, wait, 0, w); }
  }

  lemma PollNowOrder(h: Heap, t: Task, wait: Wait)
    requires QueuesOk(h)
    ensures QueuesOk(PollNow(h, t, wait).0)
  {
    hide QueuesOk, PollWait, WithdrawFrom;
    PollWaitOrder(h, t, wait, Noop);
    var (h1, wait1, out) := PollWait(h, t, wait, Noop);
    ClaimOrder(h1, wait.mark);
    WithdrawFromOrder(Claim(h1, wait.mark), wait1.arms, 0, None);
  }

  lemma CancelOrder(h: Heap, wait: Wait)
    requires QueuesOk(h)
    ensures QueuesOk(CancelWait(h, wait).0) && QueuesOk(WithdrawFrom(h, wait.arms, 0, None))
  {
    hide QueuesOk, Resolve, WithdrawFrom;
    var d := FirstDelivered(h, wait.arms);
    if d.Some? { ResolveOrder(h, wait, d.value); }
    WithdrawFromOrder(h, wait.arms, 0, None);
  }

  lemma TrySendOrder(h: Heap, t: Task, c: nat, v: Value)
    requires c < |h.chans|
    ensures QueueSteps(h, TrySend(h, t, c, v).0)
  {
    hide TasksOf, FindWaiter;
  }

  lemma TryRecvOrder(h: Heap, c: nat)
    requires c < |h.chans|
    ensures QueueSteps(h, TryRecv(h, c).0)
  {
    hide TakeOffer, PopFront, OffersStep, FindOffer;
    var core := h.chans[c];
    SameOrder(h);
    if core.buf != [] {
      PopFrontOrder(h, c);
      OffersSteps(h, PopFront(h, c));
    } else if core.cap == 0 {
      var k := FindOffer(h, core.offers, None);
      if k.Some? {
        TakeOfferOrder(h, c, core.offers[k.value]);
        OffersSteps(h, TakeOffer(h, c, core.offers[k.value]));
      }
    }
  }

  lemma OffersSteps(h: Heap, h1: Heap)
    requires OffersStep(h, h1)
    ensures QueueSteps(h, h1)
  {
    hide Without;
  }

  lemma CloseOrder(h: Heap, c: nat)
    requires c < |h.chans|
    ensures QueueSteps(h, Close(h, c))
  {
    hide TasksOf, WaiterWakers, OfferWakers, SerialsOf, Without;
  }

  lemma UnrecvOrder(h: Heap, c: nat, item: Item)
    requires c < |h.chans|
    ensures QueueSteps(h, Unrecv(h, c, item))
  {
    hide TasksOf, WaiterWakers, Without;
  }

  /** The same queues, or more of them that are empty. */
  lemma GrownOrder(h: Heap, h': Heap)
    requires QueuesOk(h) && |h.chans| <= |h'.chans| && h'.offers == h.offers && h'.waiters == h.waiters
    requires forall c {:trigger h'.chans[c]} :: 0 <= c < |h'.chans| ==>
      if c < |h.chans| then h'.chans[c] == h.chans[c] else h'.chans[c].offers == [] == h'.chans[c].waiters
    ensures QueuesOk(h')
  {
  }

  lemma ApplyOrder(w: World, op: Op)
    requires QueuesOk(w.h) && Enabled(w, op)
    ensures QueuesOk(Apply(w, op).h)
  {
    hide QueuesOk, PollWait, PollNow, CancelWait, WithdrawFrom, QueueSteps, TrySend, TryRecv, Close, Unrecv;
    match op
    case CheckNow(t, cases, start) =>
      var (h1, wait) := NewWait(AddMark(w.h, t), t, cases, start, Some(|w.h.marks|), true);
      GrownOrder(w.h, h1);
      PollNowOrder(h1, t, wait);
    case Poll(t) =>
      GrownOrder(w.h, Asleep(w.h, t));
      PollWaitOrder(Asleep(w.h, t), t, w.waits[t], Wake(t));
    case Cancel(t) => CancelOrder(w.h, w.waits[t]);
    case Drop(t) => CancelOrder(w.h, w.waits[t]);
    case DoTrySend(t, c, v) => TrySendOrder(w.h, t, c, v); StepsOk(w.h, Apply(w, op).h);
    case DoTryRecv(c) => TryRecvOrder(w.h, c); StepsOk(w.h, Apply(w, op).h);
    case DoClose(c) => CloseOrder(w.h, c); StepsOk(w.h, Apply(w, op).h);
    case PutBack(c, item) => UnrecvOrder(w.h, c, item); StepsOk(w.h, Apply(w, op).h);
    case _ => GrownOrder(w.h, Apply(w, op).h);
  }

  lemma {:induction false} RunOrder(w: World, ops: seq<Op>, w': World)
    requires QueuesOk(w.h) && RunsTo(w, ops, w')
    ensures QueuesOk(w'.h)
    decreases |ops|
  {
    hide QueuesOk, Apply, Enabled;
    if ops != [] {
      ApplyOrder(w, ops[0]);
      RunOrder(Apply(w, ops[0]), ops[1..], w');
    }
  }

  /** In every reachable state the offers and the waiters of each channel are queued in order of arrival. */
  lemma InOrderOfArrival(w: World)
    requires Reachable(w)
    ensures QueuesOk(w.h)
  {
    var ops :| RunsTo(Init(), ops, w);
    RunOrder(Init(), ops, w);
  }
}
