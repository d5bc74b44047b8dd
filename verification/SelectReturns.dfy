/**
 Where a wait leaves the values that it does not hand out: a value that was
 put in the slot of a case not chosen goes back to the front of its channel.
 */
module SelectReturns {
  import opened Basics
  import opened ChanSpec
  import opened ChanInv
  import opened SelectSpec
  import opened SelectInv
  import opened SelectTheorems
  import opened SelectResults

  /** The value in the slot of a receive case. */
  function SlotOf(h: Heap, arm: Arm): Option<Item> {
    if arm.Recv? && arm.waiter.Some? && arm.waiter.value < |h.waiters| then h.waiters[arm.waiter.value].slot else None
  }

  /** The values in the slots of the cases on `c` from `j` on, but for `chosen`: that of the last case first. */
  function Back(h: Heap, arms: seq<Arm>, j: nat, chosen: Option<nat>, c: nat): seq<Item>
    decreases |arms| - j
  {
    if j >= |arms| then []
    else
      var rest := Back(h, arms, j + 1, chosen, c);
      var slot := SlotOf(h, arms[j]);
      if chosen != Some(j) && slot.Some? && arms[j].chan == c then rest + [slot.value] else rest
  }

  /** The receive `arm` took the front of its channel's buffer. */
  predicate Pops(h: Heap, arm: Arm, out: Out, c: nat)
    requires c < |h.chans|
  {
    && arm.Recv? && arm.chan == c && out.Received? && h.chans[c].buf != []
    && (h.chans[c].cap > 0 || SlotOf(h, arm).None?)
  }

  /** The buffer of `c` after the chosen case: without its front, with a value sent, or as it was. */
  function Own(h: Heap, arm: Arm, out: Out, c: nat): seq<Item>
    requires c < |h.chans|
  {
    var buf := h.chans[c].buf;
    if Pops(h, arm, out, c) then buf[1..]
    else if arm.Send? && arm.chan == c && out.Sent? && h.chans[c].cap > 0 then buf + [arm.item]
    else buf
  }

  /** No two cases share a waiter. */
  ghost predicate OwnWaiters(arms: seq<Arm>) {
    forall i, j :: 0 <= i < j < |arms| && arms[i].Recv? && arms[j].Recv? && arms[i].waiter.Some? ==>
      arms[j].waiter != arms[i].waiter
  }

  /** The cases name records of `h`, each its own, and none is a check without waiting. */
  ghost predicate CasesOk(h: Heap, arms: seq<Arm>) {
    && OwnWaiters(arms)
    && forall i {:trigger arms[i]} :: 0 <= i < |arms| ==> ArmRefs(h, arms[i]) && !(arms[i].Send? && arms[i].eager)
  }

  // ---- withdrawing -------------------------------------------------------------------

  lemma {:induction false} BackSame(h: Heap, arms: seq<Arm>, h1: Heap, arms1: seq<Arm>, j: nat, chosen: Option<nat>,
                                    c: nat)
    requires |arms1| == |arms|
    requires forall i :: j <= i < |arms| && chosen != Some(i) ==>
      SlotOf(h1, arms1[i]) == SlotOf(h, arms[i]) && (arms[i].Recv? ==> arms1[i].Recv? && arms1[i].chan == arms[i].chan)
    ensures Back(h1, arms1, j, chosen, c) == Back(h, arms, j, chosen, c)
    decreases |arms| - j
  {
    if j < |arms| { BackSame(h, arms, h1, arms1, j + 1, chosen, c); }
  }

  /** Waiters are as they were, but for the one that `arm` holds. */
  ghost predicate WaitersKept(h: Heap, h1: Heap, arm: Arm) {
    && |h1.waiters| == |h.waiters| && |h1.offers| == |h.offers| && |h1.chans| == |h.chans|
    && forall w {:trigger h1.waiters[w]} :: 0 <= w < |h.waiters| && !(arm.Recv? && arm.waiter == Some(w)) ==>
         h1.waiters[w] == h.waiters[w]
  }

  lemma OneReturns(h: Heap, arm: Arm, c: nat)
    requires ArmRefs(h, arm) && c < |h.chans|
    ensures var h1 := WithdrawArm(h, arm).0;
      && WaitersKept(h, h1, arm) && |h1.chans| == |h.chans| && h1.chans[c].popped == h.chans[c].popped
      && h1.chans[c].buf ==
           (if SlotOf(h, arm).Some? && arm.chan == c then [SlotOf(h, arm).value] else []) + h.chans[c].buf
  {
    hide TasksOf, ReceiverWakers, Without;
    match arm
    case Recv(_, _) => ReturnsSlot(h, arm, c);
    case Send(_, _, _, _) => hide PushFront, Forget;
    case Other(_) =>
  }

  lemma ReturnsSlot(h: Heap, arm: Arm, c: nat)
    requires ArmRefs(h, arm) && arm.Recv? && c < |h.chans|
    ensures var h1 := WithdrawRecv(h, arm).0;
      && WaitersKept(h, h1, arm) && |h1.chans| == |h.chans| && h1.chans[c].popped == h.chans[c].popped
      && h1.chans[c].buf ==
           (if SlotOf(h, arm).Some? && arm.chan == c then [SlotOf(h, arm).value] else []) + h.chans[c].buf
  {
    hide TasksOf, ReceiverWakers, Without;
  }

  /** What happens to the case `j` leaves the slots of the others. */
  lemma SlotsKept(h: Heap, h1: Heap, arms: seq<Arm>, j: nat)
    requires CasesOk(h, arms) && j < |arms| && WaitersKept(h, h1, arms[j])
    ensures CasesOk(h1, arms)
    ensures forall i :: 0 <= i < |arms| && i != j ==> SlotOf(h1, arms[i]) == SlotOf(h, arms[i])
  {
  }

  /** Withdrawing puts the values in the slots back to the fronts of their channels. */
  lemma {:induction false} WithdrawReturns(h: Heap, arms: seq<Arm>, j: nat, chosen: Option<nat>, c: nat)
    requires CasesOk(h, arms) && c < |h.chans|
    ensures var h' := WithdrawFrom(h, arms, j, chosen);
      && |h'.chans| == |h.chans| && h'.chans[c].popped == h.chans[c].popped
      && h'.chans[c].buf == Back(h, arms, j, chosen, c) + h.chans[c].buf
    decreases |arms| - j
  {
    hide SlotOf, WithdrawArm, OwnWaiters, WaitersKept;
    if j < |arms| {
      if chosen == Some(j) {
        WithdrawReturns(h, arms, j + 1, chosen, c);
      } else {
        var h1 := WithdrawArm(h, arms[j]).0;
        OneReturns(h, arms[j], c);
        SlotsKept(h, h1, arms, j);
        WithdrawReturns(h1, arms, j + 1, chosen, c);
        BackSame(h, arms, h1, arms, j + 1, chosen, c);
      }
    }
  }

  // ---- polling -----------------------------------------------------------------------

  /** What a receive from a buffered channel reports. */
  ghost predicate Reports(h: Heap, arm: Arm, out: Out) {
    arm.Recv? && arm.chan < |h.chans| && h.chans[arm.chan].cap > 0 ==>
      var core := h.chans[arm.chan];
      && (out.Received? ==> core.buf != [] && out.item == core.buf[0])
      && (out.RecvClosed? ==> core.buf == [] && core.closed)
  }

  ghost predicate SameQueues(h: Heap, h1: Heap) {
    |h1.chans| == |h.chans| && forall c {:trigger h1.chans[c]} :: 0 <= c < |h.chans| ==>
      && h1.chans[c].buf == h.chans[c].buf && h1.chans[c].popped == h.chans[c].popped
      && h1.chans[c].cap == h.chans[c].cap && h1.chans[c].closed == h.chans[c].closed
  }

  /** After a poll, `arm1` is the case `arm`; it holds the waiter that it held, or one that `fresh` allows, or none. */
  ghost predicate SameCase(arm: Arm, arm1: Arm, h: Heap) {
    match arm
    case Recv(c, w) => arm1.Recv? && arm1.chan == c && arm1.waiter in {w, None, Some(|h.waiters|)}
    case Send(_, _, _, _) => arm1.Send? && arm1 == arm.(offer := arm1.offer)
    case Other(_) => arm1 == arm
  }

  /** The case is not ready: nothing moved. */
  ghost predicate Still(h: Heap, arm: Arm, s: ArmStep) {
    && SameQueues(h, s.h) && |h.waiters| <= |s.h.waiters| && |h.offers| <= |s.h.offers|
    && (forall id {:trigger s.h.waiters[id]} :: 0 <= id < |h.waiters| ==> s.h.waiters[id].slot == h.waiters[id].slot)
    && SlotOf(s.h, s.arm) == SlotOf(h, arm) && ArmRefs(s.h, s.arm) && SameCase(arm, s.arm, h)
  }

  lemma RendezvousStill(h: Heap, arm: Arm, me: Owner, mark: Option<nat>, w: Waker)
    requires ArmRefs(h, arm) && arm.Recv? && PollRendezvous(h, arm, me, mark, w).out.Pending?
    ensures Still(h, arm, PollRendezvous(h, arm, me, mark, w))
  {
    hide TakeOffer, PopFront, Forget, FindOffer;
  }

  lemma SendStill(h: Heap, arm: Arm, me: Owner, mark: Option<nat>, w: Waker)
    requires ArmRefs(h, arm) && arm.Send? && PollSend(h, arm, me, mark, w).out.Pending?
    ensures Still(h, arm, PollSend(h, arm, me, mark, w))
  {
    hide PushBack, Fill, FindWaiter, TasksOf, WaiterWakers;
  }

  lemma PendingKeeps(h: Heap, arm: Arm, me: Owner, mark: Option<nat>, w: Waker)
    requires ArmRefs(h, arm) && PollArm(h, arm, me, mark, w).out.Pending?
    ensures Still(h, arm, PollArm(h, arm, me, mark, w))
  {
    hide PollRendezvous, PollSend, PopFront;
    match arm
    case Recv(c, _) => if h.chans[c].cap == 0 { RendezvousStill(h, arm, me, mark, w); }
    case Send(_, _, _, _) => SendStill(h, arm, me, mark, w);
    case Other(_) =>
  }

  /** The case is ready: only its own channel and its own slot changed. */
  ghost predicate Ready(h: Heap, arm: Arm, s: ArmStep, c: nat)
    requires c < |h.chans|
  {
    && WaitersKept(h, s.h, arm) && SameCase(arm, s.arm, h) && ArmRefs(s.h, s.arm)
    && (s.arm.Recv? ==> s.arm.waiter in {arm.waiter, None})
    && s.h.chans[c].buf == Own(h, arm, s.out, c) && Reports(h, arm, s.out)
    && s.h.chans[c].popped == h.chans[c].popped + (if Pops(h, arm, s.out, c) then [h.chans[c].buf[0]] else [])
  }

  lemma SlotReady(h: Heap, arm: Arm, c: nat)
    requires ArmRefs(h, arm) && arm.Recv? && h.chans[arm.chan].cap == 0 && c < |h.chans| && SlotOf(h, arm).Some?
    ensures var item, w := SlotOf(h, arm).value, arm.waiter;
      Ready(h, arm, ArmStep(Forget(Hand(TakeSlot(h, w.value), item), arm.chan, w), arm.(waiter := None),
        Received(item)), c)
  {
    hide Without;
  }

  lemma FrontReady(h: Heap, arm: Arm, c: nat)
    requires ArmRefs(h, arm) && arm.Recv? && h.chans[arm.chan].cap == 0 && c < |h.chans|
    requires SlotOf(h, arm).None? && h.chans[arm.chan].buf != []
    ensures var d := arm.chan;
      Ready(h, arm, ArmStep(Forget(PopFront(h, d), d, arm.waiter), arm.(waiter := None), Received(h.chans[d].buf[0])),
        c)
  {
    hide Without, TasksOf;
  }

  lemma OfferReady(h: Heap, arm: Arm, o: nat, c: nat)
    requires ArmRefs(h, arm) && arm.Recv? && h.chans[arm.chan].cap == 0 && c < |h.chans| && o < |h.offers|
    requires SlotOf(h, arm).None? && h.chans[arm.chan].buf == []
    ensures var d := arm.chan;
      Ready(h, arm, ArmStep(Forget(TakeOffer(h, d, o), d, arm.waiter), arm.(waiter := None),
        Received(h.offers[o].item)), c)
  {
    hide Without, TasksOf;
  }

  lemma ClosedReady(h: Heap, arm: Arm, c: nat)
    requires ArmRefs(h, arm) && arm.Recv? && h.chans[arm.chan].cap == 0 && c < |h.chans|
    ensures Ready(h, arm, ArmStep(Forget(h, arm.chan, arm.waiter), arm.(waiter := None), RecvClosed), c)
  {
    hide Without;
  }

  lemma RendezvousReady(h: Heap, arm: Arm, me: Owner, mark: Option<nat>, w: Waker, c: nat)
    requires ArmRefs(h, arm) && arm.Recv? && h.chans[arm.chan].cap == 0 && c < |h.chans|
    requires !PollRendezvous(h, arm, me, mark, w).out.Pending?
    ensures Ready(h, arm, PollRendezvous(h, arm, me, mark, w), c)
  {
    hide Ready, PostWaiter, Forget, TakeOffer, PopFront, TakeSlot;
    var core := h.chans[arm.chan];
    if SlotOf(h, arm).Some? {
      SlotReady(h, arm, c);
    } else if core.buf != [] {
      FrontReady(h, arm, c);
    } else {
      var k := FindOffer(h, core.offers, mark);
      if k.Some? { OfferReady(h, arm, core.offers[k.value], c); } else { ClosedReady(h, arm, c); }
    }
  }

  lemma BufferedReady(h: Heap, arm: Arm, w: Waker, c: nat)
    requires ArmRefs(h, arm) && arm.Recv? && h.chans[arm.chan].cap > 0 && c < |h.chans|
    requires !PollBuffered(h, arm, w).out.Pending?
    ensures Ready(h, arm, PollBuffered(h, arm, w), c)
  {
    hide TasksOf;
  }

  lemma SendReady(h: Heap, arm: Arm, me: Owner, mark: Option<nat>, w: Waker, c: nat)
    requires ArmRefs(h, arm) && arm.Send? && !arm.eager && c < |h.chans|
    requires !PollSend(h, arm, me, mark, w).out.Pending?
    ensures Ready(h, arm, PollSend(h, arm, me, mark, w), c)
  {
    hide TasksOf, PostOffer, Fill, FindWaiter;
  }

  lemma ReadyKeeps(h: Heap, arm: Arm, me: Owner, mark: Option<nat>, w: Waker, c: nat)
    requires ArmRefs(h, arm) && !PollArm(h, arm, me, mark, w).out.Pending?
    requires !(arm.Send? && arm.eager) && c < |h.chans|
    ensures Ready(h, arm, PollArm(h, arm, me, mark, w), c)
  {
    hide PollRendezvous, PollSend, PollBuffered;
    match arm
    case Recv(d, _) =>
      if h.chans[d].cap == 0 { RendezvousReady(h, arm, me, mark, w, c); } else { BufferedReady(h, arm, w, c); }
    case Send(_, _, _, _) => SendReady(h, arm, me, mark, w, c);
    case Other(_) =>
  }

  /** What a poll of a wait leaves in `c`. */
  ghost predicate Returns(h: Heap, arms: seq<Arm>, h': Heap, out: Outcome, c: nat)
    requires c < |h.chans|
  {
    && |h'.chans| == |h.chans|
    && match out
       case Waiting => h'.chans[c].buf == h.chans[c].buf && h'.chans[c].popped == h.chans[c].popped
       case Chosen(i, o) =>
         && i < |arms|
         && h'.chans[c].buf == Back(h, arms, 0, Some(i), c) + Own(h, arms[i], o, c)
         && h'.chans[c].popped == h.chans[c].popped + (if Pops(h, arms[i], o, c) then [h.chans[c].buf[0]] else [])
         && Reports(h, arms[i], o)
  }

  /** Case `i` is still pending after its poll; the rest of the poll then returns the same values. */
  lemma PendingReturns(h: Heap, arms: seq<Arm>, i: nat, s: ArmStep)
    requires CasesOk(h, arms) && i < |arms| && Still(h, arms[i], s)
    ensures CasesOk(s.h, arms[i := s.arm]) && SameQueues(h, s.h)
    ensures forall j :: 0 <= j < |arms| ==>
      && SlotOf(s.h, arms[i := s.arm][j]) == SlotOf(h, arms[j]) && SameCase(arms[j], arms[i := s.arm][j], h)
  {
  }

  /** What holds of a poll from after that step holds of it from before. */
  lemma ReturnsBefore(h: Heap, arms: seq<Arm>, h1: Heap, arms1: seq<Arm>, h': Heap, out: Outcome, c: nat)
    requires c < |h.chans| && SameQueues(h, h1) && |arms1| == |arms| && Returns(h1, arms1, h', out, c)
    requires forall j :: 0 <= j < |arms| ==>
      ArmRefs(h, arms[j]) && SlotOf(h1, arms1[j]) == SlotOf(h, arms[j]) && SameCase(arms[j], arms1[j], h)
    ensures Returns(h, arms, h', out, c)
  {
    if out.Chosen? {
      assert SameCase(arms[out.case_], arms1[out.case_], h);
      BackSame(h, arms, h1, arms1, 0, Some(out.case_), c);
    }
  }

  lemma ReadyReturns(h: Heap, t: Task, wait: Wait, i: nat, s: ArmStep, c: nat)
    requires CasesOk(h, wait.arms) && i < |wait.arms| && c < |h.chans| && Ready(h, wait.arms[i], s, c)
    ensures Returns(h, wait.arms, Resolve(s.h, wait.(arms := wait.arms[i := s.arm]), i), Chosen(i, s.out), c)
  {
    var arms, arms1 := wait.arms, wait.arms[i := s.arm];
    var hc := Claim(s.h, wait.mark);
    assert CasesOk(hc, arms1);
    WithdrawReturns(hc, arms1, 0, Some(i), c);
    BackSame(h, arms, hc, arms1, 0, Some(i), c);
  }

  lemma {:induction false} PollFromReturns(h: Heap, t: Task, wait: Wait, k: nat, w: Waker, c: nat)
    requires CasesOk(h, wait.arms) && c < |h.chans|
    ensures var (h', _, out) := PollFrom(h, t, wait, k, w); Returns(h, wait.arms, h', out, c)
    decreases |wait.arms| - k
  {
    hide PollArm, Returns, Resolve, SlotOf, OwnWaiters, SameCase, Ready, Still;
    if k < |wait.arms| {
      var i := Turn(wait.start, k, |wait.arms|);
      var s := PollArm(h, wait.arms[i], Owner(t, i), wait.mark, w);
      var wait1 := wait.(arms := wait.arms[i := s.arm]);
      if s.out.Pending? {
        PendingKeeps(h, wait.arms[i], Owner(t, i), wait.mark, w);
        PendingReturns(h, wait.arms, i, s);
        PollFromReturns(s.h, t, wait1, k + 1, w, c);
        var (h', _, out) := PollFrom(s.h, t, wait1, k + 1, w);
        ReturnsBefore(h, wait.arms, s.h, wait1.arms, h', out, c);
      } else {
        ReadyKeeps(h, wait.arms[i], Owner(t, i), wait.mark, w, c);
        ReadyReturns(h, t, wait, i, s, c);
      }
    } else {
      NothingReturned(h, wait.arms, c);
    }
  }

  lemma NothingReturned(h: Heap, arms: seq<Arm>, c: nat)
    requires c < |h.chans|
    ensures Returns(h, arms, h, Waiting, c)
  {
  }

  // ---- the theorems -------------------------------------------------------------------

  /** The cases of a wait in progress; those that were delivered are on rendezvous channels. */
  ghost predicate WaitReady(h: Heap, arms: seq<Arm>) {
    && CasesOk(h, arms)
    && forall i :: 0 <= i < |arms| && Delivered(h, arms[i]) ==> h.chans[arms[i].chan].cap == 0
  }

  lemma WaitCases(w: World, t: Task)
    requires Inv(w) && t in w.waits
    ensures WaitReady(w.h, w.waits[t].arms) && WaitReady(Asleep(w.h, t), w.waits[t].arms)
  {
    var wait := w.waits[t];
    assert WaitOk(w.h, t, wait);
    assert forall i :: 0 <= i < |wait.arms| ==> Fine(w.h, wait.arms[i], Owner(t, i), wait.mark, i in All(|wait.arms|));
  }

  lemma PollWaitReturns(h: Heap, t: Task, wait: Wait, w: Waker, c: nat)
    requires WaitReady(h, wait.arms) && c < |h.chans|
    ensures var (h', _, out) := PollWait(h, t, wait, w); Returns(h, wait.arms, h', out, c)
  {
    hide Returns, PollFrom, Resolve, OwnWaiters;
    var d := FirstDelivered(h, wait.arms);
    if d.Some? {
      ReadyReturns(h, t, wait, d.value, ArmStep(h, wait.arms[d.value], Sent), c);
      assert wait.arms[d.value := wait.arms[d.value]] == wait.arms;
    } else {
      PollFromReturns(h, t, wait, 0, w, c);
    }
  }

  lemma AppliedTo(w: World, t: Task)
    requires t in w.waits
    ensures Apply(w, Poll(t)).h == PollWait(Asleep(w.h, t), t, w.waits[t], Wake(t)).0
    ensures Apply(w, Cancel(t)).h == CancelWait(w.h, w.waits[t]).0
    ensures Apply(w, Drop(t)).h == WithdrawFrom(w.h, w.waits[t].arms, 0, None)
  {
    hide PollWait, CancelWait, WithdrawFrom;
  }

  /**
   A poll moves no value but the one it reports: the values in the slots of
   the cases not chosen are at the front of their channels, and the chosen
   case took the front of its buffer, added its value at the back, or left it.
   */
  lemma PollReturns(w: World, t: Task, c: nat)
    requires Reachable(w) && t in w.waits && c < |w.h.chans|
    ensures Returns(w.h, w.waits[t].arms, Apply(w, Poll(t)).h,
                    PollWait(Asleep(w.h, t), t, w.waits[t], Wake(t)).2, c)
  {
    ReachableInv(w);
    WaitCases(w, t);
    AppliedTo(w, t);
    hide Reachable, Inv, PollWait, Returns, OwnWaiters, Apply;
    var h0, wait := Asleep(w.h, t), w.waits[t];
    PollWaitReturns(h0, t, wait, Wake(t), c);
    var (h', _, out) := PollWait(h0, t, wait, Wake(t));
    SameCases(w.h, h0, wait.arms);
    ReturnsBefore(w.h, wait.arms, h0, wait.arms, h', out, c);
  }

  lemma SameCases(h: Heap, h1: Heap, arms: seq<Arm>)
    requires h1.chans == h.chans && h1.waiters == h.waiters
    ensures SameQueues(h, h1)
    ensures forall j :: 0 <= j < |arms| ==> SlotOf(h1, arms[j]) == SlotOf(h, arms[j]) && SameCase(arms[j], arms[j], h)
  {
  }

  lemma CancelWaitReturns(h: Heap, wait: Wait, c: nat)
    requires WaitReady(h, wait.arms) && c < |h.chans|
    ensures var h' := CancelWait(h, wait).0;
      |h'.chans| == |h.chans| && h'.chans[c].buf == Back(h, wait.arms, 0, None, c) + h.chans[c].buf
  {
    hide WithdrawFrom, Back, OwnWaiters;
    var d := FirstDelivered(h, wait.arms);
    if d.Some? {
      var hc := Claim(h, wait.mark);
      WithdrawReturns(hc, wait.arms, 0, d, c);
      BackSame(h, wait.arms, hc, wait.arms, 0, d, c);
      SendKeepsNoSlot(h, wait.arms, 0, d.value, c);
    } else {
      WithdrawReturns(h, wait.arms, 0, None, c);
    }
  }

  lemma {:induction false} SendKeepsNoSlot(h: Heap, arms: seq<Arm>, j: nat, i: nat, c: nat)
    requires i < |arms| && SlotOf(h, arms[i]).None?
    ensures Back(h, arms, j, Some(i), c) == Back(h, arms, j, None, c)
    decreases |arms| - j
  {
    if j < |arms| { SendKeepsNoSlot(h, arms, j + 1, i, c); }
  }

  /** A wait that is cancelled or dropped leaves every value that a slot of it held at the front of its channel. */
  lemma CancelReturns(w: World, t: Task, c: nat)
    requires Reachable(w) && t in w.waits && c < |w.h.chans|
    ensures var back := Back(w.h, w.waits[t].arms, 0, None, c) + w.h.chans[c].buf;
      var cancelled, dropped := Apply(w, Cancel(t)).h, Apply(w, Drop(t)).h;
      && |cancelled.chans| == |dropped.chans| == |w.h.chans|
      && cancelled.chans[c].buf == back && dropped.chans[c].buf == back
  {
    ReachableInv(w);
    WaitCases(w, t);
    AppliedTo(w, t);
    hide Reachable, Inv, CancelWait, WithdrawFrom, OwnWaiters, Apply, Back;
    CancelWaitReturns(w.h, w.waits[t], c);
    WithdrawReturns(w.h, w.waits[t].arms, 0, None, c);
  }

  /**
   A buffered channel is first in, first out: without put-backs, the value
   received is the first of those pushed that was not received before, and
   the close is reported only when all were.
   */
  lemma ReceivesInOrder(w: World, t: Task, i: nat, out: Out)
    requires Reachable(w) && t in w.waits && i < |w.waits[t].arms| && w.waits[t].arms[i].Recv?
    requires PollWait(Asleep(w.h, t), t, w.waits[t], Wake(t)).2 == Chosen(i, out)
    requires w.waits[t].arms[i].chan < |w.h.chans|
    requires w.h.chans[w.waits[t].arms[i].chan].cap > 0 && w.h.chans[w.waits[t].arms[i].chan].putBacks == 0
    ensures var c := w.waits[t].arms[i].chan;
      var core := w.h.chans[c];
      && (out.Received? ==>
            && |core.popped| < |core.pushed| && out.item == core.pushed[|core.popped|]
            && c < |Apply(w, Poll(t)).h.chans| && Apply(w, Poll(t)).h.chans[c].popped == core.popped + [out.item])
      && (out.RecvClosed? ==> core.closed && core.popped == core.pushed)
  {
    var c := w.waits[t].arms[i].chan;
    PollReturns(w, t, c);
    BoundedQueue(w, c);
    hide Reachable, PollWait, Apply, Back, Own;
  }

  /** A plain receive from it waits exactly while everything pushed was received and the channel is open. */
  lemma PlainWaits(w: World, t: Task)
    requires Reachable(w) && t in w.waits && |w.waits[t].arms| == 1 && w.waits[t].arms[0].Recv?
    requires w.waits[t].arms[0].chan < |w.h.chans|
    requires w.h.chans[w.waits[t].arms[0].chan].cap > 0 && w.h.chans[w.waits[t].arms[0].chan].putBacks == 0
    ensures var core := w.h.chans[w.waits[t].arms[0].chan];
      PollWait(Asleep(w.h, t), t, w.waits[t], Wake(t)).2.Waiting? <==> core.popped == core.pushed && !core.closed
  {
    BoundedQueue(w, w.waits[t].arms[0].chan);
    ReachableInv(w);
    WaitCases(w, t);
    hide Reachable, Inv, OwnWaiters;
    PollsOne(Asleep(w.h, t), t, w.waits[t]);
  }

  lemma PollsOne(h: Heap, t: Task, wait: Wait)
    requires |wait.arms| == 1 && ArmRefs(h, wait.arms[0]) && wait.arms[0].Recv? && h.chans[wait.arms[0].chan].cap > 0
    ensures PollWait(h, t, wait, Wake(t)).2.Waiting? <==>
      h.chans[wait.arms[0].chan].buf == [] && !h.chans[wait.arms[0].chan].closed
  {
    hide Resolve, PopFront, RegisterRecv;
    var s := PollArm(h, wait.arms[0], Owner(t, 0), wait.mark, Wake(t));
    var wait1 := wait.(arms := wait.arms[0 := s.arm]);
    assert Turn(wait.start, 0, 1) == 0;
    assert PollFrom(s.h, t, wait1, 1, Wake(t)) == (s.h, wait1, Waiting);
  }
}
