/**
 The guarantees of channels and `select`, over every run.

 `Reachable(w)` says that some sequence of operations leads from the empty
 VM to `w`; the operations interleave polls, cancels, drops, sends, receives,
 closes and put-backs of any number of tasks in any order.
 */
module SelectTheorems {
  import opened Basics
  import opened ChanSpec
  import opened ChanInv
  import opened ChanLedger
  import opened ChanProgress
  import opened SelectSpec
  import opened SelectInv
  import opened SelectRun

  /** `ops`, each enabled in its turn, lead from `w` to `w'`. */
  ghost predicate RunsTo(w: World, ops: seq<Op>, w': World)
    decreases |ops|
  {
    if ops == [] then w' == w
    else Enabled(w, ops[0]) && RunsTo(Apply(w, ops[0]), ops[1..], w')
  }

  ghost predicate Reachable(w: World) {
    exists ops :: RunsTo(Init(), ops, w)
  }

  lemma {:induction false} RunKeeps(w: World, ops: seq<Op>, w': World)
    requires Inv(w) && RunsTo(w, ops, w')
    ensures Inv(w') && After(w.h, w'.h)
    decreases |ops|
  {
    hide Inv, After;
    if ops == [] {
      AfterRefl(w.h);
    } else {
      ApplyInv(w, ops[0]);
      var w1 := Apply(w, ops[0]);
      RunKeeps(w1, ops[1..], w');
      AfterTrans(w.h, w1.h, w'.h);
    }
  }

  lemma ReachableInv(w: World)
    requires Reachable(w)
    ensures Inv(w)
  {
    var ops :| RunsTo(Init(), ops, w);
    InitInv();
    RunKeeps(Init(), ops, w);
  }

  // ---- no lost wake-up ------------------------------------------------------------

  lemma QuietPoll(h: Heap, arm: Arm, me: Owner, mark: Option<nat>)
    requires ArmRefs(h, arm) && Quiet(h, arm, me.task, mark)
    ensures PollArm(h, arm, me, mark, Wake(me.task)) == ArmStep(h, arm, Pending)
  {
    match arm
    case Recv(c, w) =>
      assert h.chans[c := h.chans[c]] == h.chans;
      if w.Some? { assert h.waiters[w.value := h.waiters[w.value]] == h.waiters; }
      var k := FindOffer(h, h.chans[c].offers, mark);
      if k.Some? { assert h.chans[c].offers[k.value] in h.chans[c].offers; }
    case Send(c, _, o, _) =>
      assert h.chans[c := h.chans[c]] == h.chans;
      if o.Some? { assert h.offers[o.value := h.offers[o.value]] == h.offers; }
    case Other(_) =>
  }

  lemma {:induction false} QuietPollFrom(h: Heap, t: Task, wait: Wait, k: nat)
    requires forall i: nat :: i < |wait.arms| ==>
      ArmRefs(h, wait.arms[i]) && Quiet(h, wait.arms[i], t, wait.mark)
    ensures PollFrom(h, t, wait, k, Wake(t)) == (h, wait, Waiting)
    decreases |wait.arms| - k
  {
    if k < |wait.arms| {
      var i := Turn(wait.start, k, |wait.arms|);
      QuietPoll(h, wait.arms[i], Owner(t, i), wait.mark);
      assert wait.arms[i := wait.arms[i]] == wait.arms;
      QuietPollFrom(h, t, wait, k + 1);
    }
  }

  /**
   No lost wake-up: in every reachable state, polling a task that sleeps in
   `recv`, `send` or `select` would find no case ready and change nothing.
   */
  lemma NoLostWakeup(w: World, t: Task)
    requires Reachable(w) && t in w.waits && t !in w.h.woken
    ensures PollWait(w.h, t, w.waits[t], Wake(t)) == (w.h, w.waits[t], Waiting)
    ensures forall i: nat :: i < |w.waits[t].arms| ==>
      ArmRefs(w.h, w.waits[t].arms[i]) && Quiet(w.h, w.waits[t].arms[i], t, w.waits[t].mark)
  {
    ReachableInv(w);
    var wait := w.waits[t];
    assert WaitOk(w.h, t, wait);
    forall i: nat | i < |wait.arms|
      ensures ArmRefs(w.h, wait.arms[i]) && Quiet(w.h, wait.arms[i], t, wait.mark)
    {
      assert Fine(w.h, wait.arms[i], Owner(t, i), wait.mark, i in All(|wait.arms|));
    }
    QuietPollFrom(w.h, t, wait, 0);
  }

  /** Two tasks never both sleep when one could send to the other. */
  lemma NoSleepingPair(w: World, s: Task, i: nat, r: Task, j: nat)
    requires Reachable(w) && s != r && s in w.waits && r in w.waits
    requires i < |w.waits[s].arms| && w.waits[s].arms[i].Send?
    requires j < |w.waits[r].arms| && w.waits[r].arms[j].Recv?
    requires w.waits[s].arms[i].chan == w.waits[r].arms[j].chan
    ensures s in w.h.woken || r in w.h.woken
  {
    if s !in w.h.woken && r !in w.h.woken {
      ReachableInv(w);
      NoLostWakeup(w, s);
      NoLostWakeup(w, r);
    }
  }

  // ---- values are conserved --------------------------------------------------------

  /**
   Every accepted value is exactly once with a receiver, in a buffer or in a
   filled slot, whatever was cancelled, dropped or put back on the way.
   */
  lemma ValuesConserved(w: World, x: Item)
    requires Reachable(w)
    ensures w.h.accepted[x] == w.h.handed[x] + Stored(w.h, x)
    ensures w.h.accepted[x] <= 1
  {
    ReachableInv(w);
    assert Balance(w.h, x, 0);
  }

  /** What receivers hold grows by the value received, if any. */
  ghost predicate HandsOut(h: Heap, h': Heap, out: Out) {
    if out.Received? then h'.handed == h.handed + multiset{out.item} else h'.handed == h.handed
  }

  lemma PollRendezvousHands(h: Heap, arm: Arm, me: Owner, mark: Option<nat>, w: Waker)
    requires arm.Recv? && ArmRefs(h, arm)
    ensures var s := PollRendezvous(h, arm, me, mark, w); HandsOut(h, s.h, s.out)
  {
  }

  /** Received values are exactly what polls hand out. */
  lemma PollArmHands(h: Heap, arm: Arm, me: Owner, mark: Option<nat>, w: Waker)
    requires ArmRefs(h, arm)
    ensures var s := PollArm(h, arm, me, mark, w); HandsOut(h, s.h, s.out)
  {
    hide PollRendezvous;
    if arm.Recv? { PollRendezvousHands(h, arm, me, mark, w); }
  }

  lemma WithdrawArmHands(h: Heap, arm: Arm)
    requires ArmRefs(h, arm)
    ensures WithdrawArm(h, arm).0.handed == h.handed && WithdrawArm(h, arm).0.accepted == h.accepted
  {
  }

  lemma {:induction false} WithdrawFromHands(h: Heap, arms: seq<Arm>, j: nat, chosen: Option<nat>)
    ensures WithdrawFrom(h, arms, j, chosen).handed == h.handed
    ensures WithdrawFrom(h, arms, j, chosen).accepted == h.accepted
    decreases |arms| - j
  {
    if j < |arms| {
      if chosen == Some(j) || !ArmRefs(h, arms[j]) {
        WithdrawFromHands(h, arms, j + 1, chosen);
      } else {
        WithdrawArmHands(h, arms[j]);
        WithdrawFromHands(WithdrawArm(h, arms[j]).0, arms, j + 1, chosen);
      }
    }
  }

  lemma {:induction false} PollFromHands(h: Heap, t: Task, wait: Wait, k: nat, w: Waker)
    ensures var (h', _, out) := PollFrom(h, t, wait, k, w);
      HandsOut(h, h', if out.Chosen? then out.out else Pending)
    decreases |wait.arms| - k
  {
    hide PollArm, ArmRefs;
    if k < |wait.arms| {
      var i := Turn(wait.start, k, |wait.arms|);
      if !ArmRefs(h, wait.arms[i]) {
        PollFromHands(h, t, wait, k + 1, w);
      } else {
        PollArmHands(h, wait.arms[i], Owner(t, i), wait.mark, w);
        var s := PollArm(h, wait.arms[i], Owner(t, i), wait.mark, w);
        var wait1 := wait.(arms := wait.arms[i := s.arm]);
        if s.out.Pending? { PollFromHands(s.h, t, wait1, k + 1, w); }
        else { WithdrawFromHands(Claim(s.h, wait.mark), wait1.arms, 0, Some(i)); }
      }
    }
  }

  /** One poll of a wait hands out the value it resolves with, and no other. */
  lemma PollHandsItsResult(h: Heap, t: Task, wait: Wait, w: Waker)
    ensures var (h', _, out) := PollWait(h, t, wait, w);
      HandsOut(h, h', if out.Chosen? then out.out else Pending)
  {
    var d := FirstDelivered(h, wait.arms);
    if d.Some? { WithdrawFromHands(Claim(h, wait.mark), wait.arms, 0, Some(d.value)); }
    else { PollFromHands(h, t, wait, 0, w); }
  }
}
