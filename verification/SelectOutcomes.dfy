/** What the outcome of a wait says about its sends and about every other value. */
module SelectOutcomes {
  import opened Basics
  import opened ChanSpec
  import opened ChanInv
  import opened ChanArm
  import opened ChanLedger
  import opened ChanProgress
  import opened SelectSpec
  import opened SelectInv
  import opened SelectPoll
  import opened SelectRun
  import opened SelectTheorems

  // ---- withdrawn sends --------------------------------------------------------------

  /**
   Withdrawing a send ends it: as accepted if a receiver took its offer, as
   refused otherwise.  No other offer becomes taken.
   */
  lemma WithdrawArmEnds(h: Heap, arm: Arm, me: Owner, mark: Option<nat>)
    requires Structure(h) && ArmOk(h, arm, me, mark)
    ensures var h' := WithdrawArm(h, arm).0;
      && (arm.Send? ==> h'.sends[arm.item.serial] == if Delivered(h, arm) then Accepted else Refused)
      && (forall other :: ArmRefs(h, other) ==> Delivered(h', other) == Delivered(h, other))
  {
    if arm.Send? && arm.offer.Some? { assert OfferOk(h, arm.offer.value); }
  }

  /** The send cases other than `chosen`: withdrawn before `j`, as they were in `h0` from `j` on. */
  ghost predicate Ends(h0: Heap, h: Heap, arms: seq<Arm>, j: nat, chosen: Option<nat>) {
    forall i: nat :: i < |arms| && arms[i].Send? && chosen != Some(i) ==> EndsOne(h0, h, arms[i], i < j)
  }

  ghost predicate EndsOne(h0: Heap, h: Heap, arm: Arm, done: bool)
    requires arm.Send?
  {
    if done then
      arm.item.serial < |h.sends| && h.sends[arm.item.serial] == if Delivered(h0, arm) then Accepted else Refused
    else ArmRefs(h, arm) && Delivered(h, arm) == Delivered(h0, arm)
  }

  lemma WithdrawOneEnds(h0: Heap, h: Heap, t: Task, arms: seq<Arm>, mark: Option<nat>, j: nat, chosen: Option<nat>)
    requires Structure(h) && j < |arms| && chosen != Some(j) && Withdrawing(h, t, arms, mark, j, chosen)
    requires Ends(h0, h, arms, j, chosen)
    ensures ArmRefs(h, arms[j])
    ensures Ends(h0, WithdrawArm(h, arms[j]).0, arms, j + 1, chosen)
  {
    var me := Owner(t, j);
    assert DoneOrOk(h, arms[j], me, mark, false);
    var h' := WithdrawArm(h, arms[j]).0;
    WithdrawArmEnds(h, arms[j], me, mark);
    WithdrawArmAfter(h, arms[j], me, mark);
    forall i: nat | i < |arms| && arms[i].Send? && chosen != Some(i) ensures EndsOne(h0, h', arms[i], i < j + 1) {
      assert EndsOne(h0, h, arms[i], i < j);
    }
  }

  lemma {:induction false} WithdrawFromEnds(h0: Heap, h: Heap, t: Task, arms: seq<Arm>, mark: Option<nat>, j: nat,
                                            chosen: Option<nat>)
    requires Structure(h) && j <= |arms| && Withdrawing(h, t, arms, mark, j, chosen)
    requires Ends(h0, h, arms, j, chosen)
    ensures Ends(h0, WithdrawFrom(h, arms, j, chosen), arms, |arms|, chosen)
    ensures After(h, WithdrawFrom(h, arms, j, chosen))
    decreases |arms| - j
  {
    hide Structure, DoneOrOk, ArmOk, EndsOne, After;
    if j == |arms| {
      AfterRefl(h);
    } else {
      if chosen == Some(j) {
        assert forall i: nat :: chosen == Some(i) || (i < j + 1 <==> i < j);
        WithdrawFromEnds(h0, h, t, arms, mark, j + 1, chosen);
      } else {
        WithdrawOneCases(h, t, arms, mark, j, chosen);
        WithdrawOneEnds(h0, h, t, arms, mark, j, chosen);
        WithdrawArmStructure(h, arms[j], Owner(t, j), mark);
        WithdrawArmAfter(h, arms[j], Owner(t, j), mark);
        var h1 := WithdrawArm(h, arms[j]).0;
        WithdrawFromEnds(h0, h1, t, arms, mark, j + 1, chosen);
        AfterTrans(h, h1, WithdrawFrom(h1, arms, j + 1, chosen));
      }
    }
  }

  // ---- one poll -----------------------------------------------------------------------

  /** Every send case ended: the chosen one as sent if the outcome says so, the others refused. */
  ghost predicate SendsEnded(h: Heap, arms: seq<Arm>, chosen: nat, out: Out) {
    forall j: nat :: j < |arms| && arms[j].Send? ==>
      && arms[j].item.serial < |h.sends|
      && h.sends[arms[j].item.serial] == if j == chosen && out.Sent? then Accepted else Refused
  }

  /**
   What one case adds to the accepted values: at most the value it received
   or sent; a value reported as sent is accepted.
   */
  ghost predicate AcceptsOwn(h: Heap, h': Heap, out: Out, arm: Arm) {
    if out.Received? then
      h'.accepted == h.accepted || h'.accepted == h.accepted + multiset{out.item}
    else if out.Sent? then
      && arm.Send? && arm.item in h'.accepted
      && (h'.accepted == h.accepted || h'.accepted == h.accepted + multiset{arm.item})
    else h'.accepted == h.accepted
  }

  lemma RendezvousAcceptsOwn(h: Heap, arm: Arm, me: Owner, mark: Option<nat>, w: Waker)
    requires arm.Recv? && ArmRefs(h, arm)
    ensures var s := PollRendezvous(h, arm, me, mark, w); AcceptsOwn(h, s.h, s.out, arm)
  {
  }

  lemma SendAcceptsOwn(h: Heap, arm: Arm, me: Owner, mark: Option<nat>, w: Waker)
    requires Structure(h) && ArmOk(h, arm, me, mark) && arm.Send?
    ensures var s := PollSend(h, arm, me, mark, w); AcceptsOwn(h, s.h, s.out, arm)
  {
    if arm.offer.Some? { assert OfferOk(h, arm.offer.value); }
  }

  lemma PollArmAcceptsOwn(h: Heap, arm: Arm, me: Owner, mark: Option<nat>, w: Waker)
    requires Structure(h) && ArmOk(h, arm, me, mark)
    ensures var s := PollArm(h, arm, me, mark, w); AcceptsOwn(h, s.h, s.out, arm)
  {
    hide PollRendezvous, PollSend, Structure;
    if arm.Recv? { RendezvousAcceptsOwn(h, arm, me, mark, w); }
    if arm.Send? { SendAcceptsOwn(h, arm, me, mark, w); }
  }

  /** The outcome of a send case is the end of its send. */
  lemma PollSendEnds(h: Heap, arm: Arm, me: Owner, mark: Option<nat>, w: Waker)
    requires Structure(h) && ArmOk(h, arm, me, mark) && arm.Send?
    ensures var s := PollSend(h, arm, me, mark, w);
      && s.arm.Send? && s.arm.item == arm.item && arm.item.serial < |s.h.sends|
      && (s.out.Sent? ==> s.h.sends[arm.item.serial] == Accepted)
      && (s.out.SendClosed? ==> s.h.sends[arm.item.serial] == Refused && h.chans[arm.chan].closed)
      && (s.out.Sent? || s.out.SendClosed? || s.out.Pending?)
  {
    if arm.offer.Some? { assert OfferOk(h, arm.offer.value); }
  }

  lemma PollArmEnds(h: Heap, arm: Arm, me: Owner, mark: Option<nat>, w: Waker)
    requires Structure(h) && ArmOk(h, arm, me, mark)
    ensures var s := PollArm(h, arm, me, mark, w);
      && s.arm.Send? == arm.Send?
      && (arm.Send? ==>
            && s.arm.item == arm.item && arm.item.serial < |s.h.sends|
            && (s.out.Sent? ==> s.h.sends[arm.item.serial] == Accepted)
            && (s.out.SendClosed? ==> s.h.sends[arm.item.serial] == Refused)
            && (s.out.Sent? || s.out.SendClosed? || s.out.Pending?))
      && (!arm.Send? ==> !s.out.Sent?)
  {
    if arm.Send? { PollSendEnds(h, arm, me, mark, w); }
  }

  /** Of a select without its case, no offer was taken. */
  lemma UnclaimedUndelivered(h: Heap, arm: Arm, own: Owner, mark: Option<nat>)
    requires Structure(h) && ArmOk(h, arm, own, mark) && mark.Some? && !Claimed(h, mark)
    ensures !Delivered(h, arm)
  {
  }

  /** Resolving with `chosen` refuses every other send case. */
  lemma ResolveEnds(h: Heap, t: Task, wait: Wait, chosen: nat)
    requires Structure(h) && Withdrawing(h, t, wait.arms, wait.mark, 0, Some(chosen))
    requires forall j: nat :: j < |wait.arms| && j != chosen ==> !Delivered(h, wait.arms[j])
    ensures var h' := Resolve(h, wait, chosen);
      && After(h, h')
      && forall j: nat :: j < |wait.arms| && j != chosen && wait.arms[j].Send? ==>
           wait.arms[j].item.serial < |h'.sends| && h'.sends[wait.arms[j].item.serial] == Refused
  {
    var hc := Claim(h, wait.mark);
    var h' := Resolve(h, wait, chosen);
    ClaimStructure(h, wait.mark);
    ClaimCases(h, t, wait.arms, wait.mark, Some(chosen));
    ClaimAfter(h, wait.mark);
    forall j: nat | j < |wait.arms| && wait.arms[j].Send? && Some(chosen) != Some(j)
      ensures EndsOne(hc, hc, wait.arms[j], j < 0)
    {
      assert DoneOrOk(h, wait.arms[j], Owner(t, j), wait.mark, j < 0 || Some(chosen) == Some(j));
    }
    WithdrawFromEnds(hc, hc, t, wait.arms, wait.mark, 0, Some(chosen));
    AfterTrans(h, hc, h');
    forall j: nat | j < |wait.arms| && j != chosen && wait.arms[j].Send?
      ensures wait.arms[j].item.serial < |h'.sends| && h'.sends[wait.arms[j].item.serial] == Refused
    {
      assert EndsOne(hc, h', wait.arms[j], j < |wait.arms|);
      assert !Delivered(hc, wait.arms[j]);
    }
  }

  lemma OthersUndelivered(h: Heap, t: Task, wait: Wait, i: nat)
    requires Structure(h) && Withdrawing(h, t, wait.arms, wait.mark, 0, Some(i)) && !Claimed(h, wait.mark)
    requires i < |wait.arms| && (wait.mark.None? ==> |wait.arms| == 1)
    ensures forall j: nat :: j < |wait.arms| && j != i ==> !Delivered(h, wait.arms[j])
  {
    forall j: nat | j < |wait.arms| && j != i ensures !Delivered(h, wait.arms[j]) {
      assert DoneOrOk(h, wait.arms[j], Owner(t, j), wait.mark, j < 0 || Some(i) == Some(j));
      UnclaimedUndelivered(h, wait.arms[j], Owner(t, j), wait.mark);
    }
  }

  /** The case that is ready ends every send of its wait. */
  lemma ReadyEnds(h: Heap, t: Task, wait: Wait, polled: set<nat>, live: bool, i: nat, w: Waker)
    requires Structure(h) && Polling(h, t, wait, polled, live) && i < |wait.arms| && !Claimed(h, wait.mark)
    requires wait.mark.None? ==> |wait.arms| == 1
    requires ArmRefs(h, wait.arms[i]) && !PollArm(h, wait.arms[i], Owner(t, i), wait.mark, w).out.Pending?
    ensures var s := PollArm(h, wait.arms[i], Owner(t, i), wait.mark, w);
      SendsEnded(Resolve(s.h, wait.(arms := wait.arms[i := s.arm]), i), wait.arms, i, s.out)
  {
    hide Structure, Withdrawing, Polling, PollArm, ArmOk, ArmRefs, Delivered, Resolve;
    var me := Owner(t, i);
    PolledOk(h, t, wait, polled, live, i);
    var s := PollArm(h, wait.arms[i], me, wait.mark, w);
    var wait1 := wait.(arms := wait.arms[i := s.arm]);
    PollArmStructure(h, wait.arms[i], me, wait.mark, w);
    PollArmClaims(h, wait.arms[i], me, wait.mark, w);
    PollArmEnds(h, wait.arms[i], me, wait.mark, w);
    PollOneReady(h, t, wait, polled, live, i, w);
    OthersUndelivered(s.h, t, wait1, i);
    ResolveEnds(s.h, t, wait1, i);
    var h' := Resolve(s.h, wait1, i);
    forall j: nat | j < |wait.arms| && wait.arms[j].Send?
      ensures wait.arms[j].item.serial < |h'.sends|
        && h'.sends[wait.arms[j].item.serial] == if j == i && s.out.Sent? then Accepted else Refused
    {
      if j != i { assert wait1.arms[j] == wait.arms[j]; }
    }
  }

  ghost predicate Books(h: Heap, h': Heap, arms: seq<Arm>, out: Outcome) {
    match out
    case Waiting => h'.accepted == h.accepted && h'.handed == h.handed
    case Chosen(i, o) => i < |arms| && HandsOut(h, h', o) && AcceptsOwn(h, h', o, arms[i])
  }

  lemma NoBooks(h: Heap, arms: seq<Arm>)
    ensures Books(h, h, arms, Waiting)
  {
  }

  lemma ReadyBooks(h: Heap, wait: Wait, me: Owner, w: Waker)
    requires me.idx < |wait.arms| && Structure(h) && ArmOk(h, wait.arms[me.idx], me, wait.mark)
    ensures var s := PollArm(h, wait.arms[me.idx], me, wait.mark, w);
      var wait1 := wait.(arms := wait.arms[me.idx := s.arm]);
      && (s.out.Pending? ==> s.h.accepted == h.accepted && s.h.handed == h.handed)
      && Books(h, Resolve(s.h, wait1, me.idx), wait.arms, Chosen(me.idx, s.out))
  {
    hide PollArm, Structure;
    var s := PollArm(h, wait.arms[me.idx], me, wait.mark, w);
    var wait1 := wait.(arms := wait.arms[me.idx := s.arm]);
    PollArmHands(h, wait.arms[me.idx], me, wait.mark, w);
    PollArmAcceptsOwn(h, wait.arms[me.idx], me, wait.mark, w);
    WithdrawFromHands(Claim(s.h, wait.mark), wait1.arms, 0, Some(me.idx));
  }

  /** Sends of the same serials: polling changes what a case holds, not which send it is. */
  ghost predicate SameSends(a: seq<Arm>, b: seq<Arm>) {
    && |a| == |b|
    && forall i: nat :: i < |a| ==> a[i].Send? == b[i].Send? && (a[i].Send? ==> a[i].item == b[i].item)
  }

  lemma SameBooks(h: Heap, h1: Heap, h': Heap, a: seq<Arm>, b: seq<Arm>, out: Outcome)
    requires SameSends(a, b) && Books(h1, h', b, out)
    requires h1.accepted == h.accepted && h1.handed == h.handed
    ensures Books(h, h', a, out)
  {
  }

  lemma SameSendsEnded(h: Heap, a: seq<Arm>, b: seq<Arm>, chosen: nat, out: Out)
    requires SameSends(a, b) && SendsEnded(h, b, chosen, out)
    ensures SendsEnded(h, a, chosen, out)
  {
    forall j: nat | j < |a| && a[j].Send?
      ensures a[j].item.serial < |h.sends|
        && h.sends[a[j].item.serial] == if j == chosen && out.Sent? then Accepted else Refused
    {
      assert b[j].Send?;
    }
  }

  lemma {:induction false} PollFromOutcome(h: Heap, t: Task, wait: Wait, k: nat, w: Waker, live: bool)
    requires Structure(h) && k <= |wait.arms| && (live ==> w == Wake(t)) && !Claimed(h, wait.mark)
    requires wait.mark.None? ==> |wait.arms| == 1
    requires Polling(h, t, wait, Polled(wait.start, k, |wait.arms|), live)
    ensures var (h', wait', out) := PollFrom(h, t, wait, k, w);
      && Books(h, h', wait.arms, out) && SameSends(wait.arms, wait'.arms)
      && (out.Chosen? ==> out.case_ < |wait.arms| && SendsEnded(h', wait.arms, out.case_, out.out))
    decreases |wait.arms| - k
  {
    hide Structure, Polling, SendsEnded, ArmOk, PollArm, Resolve, Books;
    if k == |wait.arms| {
      NoBooks(h, wait.arms);
    } else {
      var i := Turn(wait.start, k, |wait.arms|);
      var me := Owner(t, i);
      PolledOk(h, t, wait, Polled(wait.start, k, |wait.arms|), live, i);
      var s := PollArm(h, wait.arms[i], me, wait.mark, w);
      var wait1 := wait.(arms := wait.arms[i := s.arm]);
      ReadyBooks(h, wait, me, w);
      PollArmEnds(h, wait.arms[i], me, wait.mark, w);
      assert SameSends(wait.arms, wait1.arms);
      if s.out.Pending? {
        PollOnePending(h, t, wait, Polled(wait.start, k, |wait.arms|), live, i, w);
        PollArmStructure(h, wait.arms[i], me, wait.mark, w);
        PollArmClaims(h, wait.arms[i], me, wait.mark, w);
        PollFromOutcome(s.h, t, wait1, k + 1, w, live);
        var r := PollFrom(s.h, t, wait1, k + 1, w);
        SameBooks(h, s.h, r.0, wait.arms, wait1.arms, r.2);
        if r.2.Chosen? { SameSendsEnded(r.0, wait.arms, wait1.arms, r.2.case_, r.2.out); }
      } else {
        ReadyEnds(h, t, wait, Polled(wait.start, k, |wait.arms|), live, i, w);
      }
    }
  }

  lemma PolledOk(h: Heap, t: Task, wait: Wait, polled: set<nat>, live: bool, i: nat)
    requires Polling(h, t, wait, polled, live) && i < |wait.arms|
    ensures ArmOk(h, wait.arms[i], Owner(t, i), wait.mark) && ArmRefs(h, wait.arms[i])
  {
    assert Fine(h, wait.arms[i], Owner(t, i), wait.mark, live && i in polled);
  }

  // ---- a select never receives its own value --------------------------------------------

  lemma StoredAccepted(h: Heap, x: Item)
    requires Balance(h, x, 0)
    requires (exists c :: 0 <= c < |h.chans| && x in h.chans[c].buf)
          || (exists w :: 0 <= w < |h.waiters| && h.waiters[w].slot == Some(x))
    ensures x in h.accepted
  {
    if c :| 0 <= c < |h.chans| && x in h.chans[c].buf {
      SumAtLeast(InBufs(h, x), c);
    } else {
      var w :| 0 <= w < |h.waiters| && h.waiters[w].slot == Some(x);
      SumAtLeast(InSlots(h, x), w);
    }
  }

  lemma PollArmOrigin(h: Heap, arm: Arm, me: Owner, mark: Option<nat>, w: Waker)
    requires Structure(h) && ArmRefs(h, arm) && Ledger(h, None) && mark.Some? && !Claimed(h, mark)
    requires PollArm(h, arm, me, mark, w).out.Received?
    ensures PollArm(h, arm, me, mark, w).out.item.origin != mark
  {
    hide ChanOk, WaiterOk, OffersApart, Stored, AcceptedOnce;
    var item := PollArm(h, arm, me, mark, w).out.item;
    var core := h.chans[arm.chan];
    var k := FindOffer(h, core.offers, mark);
    if arm.waiter.Some? && h.waiters[arm.waiter.value].slot == Some(item) {
      StoredAccepted(h, item);
    } else if core.buf != [] {
      StoredAccepted(h, item);
    } else {
      assert OfferOk(h, core.offers[k.value]);
    }
  }

  lemma {:induction false} PollFromOrigin(h: Heap, waits: map<Task, Wait>, t: Task, wait: Wait, k: nat, w: Waker,
                                          live: bool)
    requires Ground(h, waits, t, None) && t in waits && |waits[t].arms| == |wait.arms|
    requires k <= |wait.arms| && (live ==> w == Wake(t)) && wait.mark.Some?
    requires Polling(h, t, wait, Polled(wait.start, k, |wait.arms|), live) && !Claimed(h, wait.mark)
    ensures var out := PollFrom(h, t, wait, k, w).2;
      out.Chosen? && out.out.Received? ==> out.out.item.origin != wait.mark
    decreases |wait.arms| - k
  {
    hide Structure, Others, Live, Ledger, After, Released, Polling;
    if k < |wait.arms| {
      var i := Turn(wait.start, k, |wait.arms|);
      PollCase(h, waits, t, wait, k, i, w, live);
      var s := PollArm(h, wait.arms[i], Owner(t, i), wait.mark, w);
      if s.out.Pending? {
        PollFromOrigin(s.h, waits, t, wait.(arms := wait.arms[i := s.arm]), k + 1, w, live);
      } else if s.out.Received? {
        PollArmOrigin(h, wait.arms[i], Owner(t, i), wait.mark, w);
      }
    }
  }

  // ---- the theorems ---------------------------------------------------------------------

  /** A select has at most one taken offer, so a delivered case is the only one. */
  lemma DeliveredOnce(w: World, t: Task, d: nat)
    requires Inv(w) && t in w.waits && d < |w.waits[t].arms| && Delivered(w.h, w.waits[t].arms[d])
    ensures forall j: nat :: j < |w.waits[t].arms| && j != d ==> !Delivered(w.h, w.waits[t].arms[j])
  {
    var wait := w.waits[t];
    assert WaitOk(w.h, t, wait);
    forall j: nat | j < |wait.arms| && j != d ensures !Delivered(w.h, wait.arms[j]) {
      assert Fine(w.h, wait.arms[j], Owner(t, j), wait.mark, j in All(|wait.arms|));
      assert Fine(w.h, wait.arms[d], Owner(t, d), wait.mark, d in All(|wait.arms|));
    }
  }

  /** Resolving with the delivered case `d` ends every send: that one as accepted, the others refused. */
  lemma DeliveredEnds(w: World, h: Heap, t: Task, d: nat)
    requires Inv(w) && t in w.waits && h == w.h.(woken := h.woken)
    requires d < |w.waits[t].arms| && Delivered(w.h, w.waits[t].arms[d])
    requires Polling(h, t, w.waits[t], {}, true) && Structure(h)
    ensures SendsEnded(Resolve(h, w.waits[t], d), w.waits[t].arms, d, Sent)
  {
    var wait := w.waits[t];
    DeliveredOnce(w, t, d);
    ReadyToWithdraw(h, t, wait, {}, true, Some(d));
    assert Fine(h, wait.arms[d], Owner(t, d), wait.mark, true && d in {});
    assert OfferOk(h, wait.arms[d].offer.value);
    hide Structure, Withdrawing, Polling;
    ResolveEnds(h, t, wait, d);
  }

  /** Resolving with the delivered case accepts and hands out nothing more. */
  lemma DeliveredBooks(w: World, h: Heap, t: Task, d: nat)
    requires Inv(w) && t in w.waits && h == w.h.(woken := h.woken)
    requires d < |w.waits[t].arms| && Delivered(w.h, w.waits[t].arms[d])
    ensures Books(w.h, Resolve(h, w.waits[t], d), w.waits[t].arms, Chosen(d, Sent))
  {
    var wait := w.waits[t];
    WithdrawFromHands(Claim(h, wait.mark), wait.arms, 0, Some(d));
    assert WaitOk(w.h, t, wait);
    assert Fine(w.h, wait.arms[d], Owner(t, d), wait.mark, d in All(|wait.arms|));
    assert OfferOk(w.h, wait.arms[d].offer.value);
  }

  /**
   A poll that resolves a wait chooses one case.  Every other send of the wait
   is refused for good, the chosen one was accepted exactly when it reports
   sent, and no value but the one received or sent moves.  A poll that does
   not resolve moves no value.
   */
  lemma PollEnds(w: World, t: Task)
    requires Reachable(w) && t in w.waits
    ensures var (h', _, out) := PollWait(Asleep(w.h, t), t, w.waits[t], Wake(t));
      && Books(w.h, h', w.waits[t].arms, out)
      && (out.Chosen? ==> SendsEnded(h', w.waits[t].arms, out.case_, out.out))
  {
    ReachableInv(w);
    var wait := w.waits[t];
    var h := Asleep(w.h, t);
    assert WaitOk(w.h, t, wait);
    AsleepGround(w, t);
    InvPolling(w, t);
    var d := FirstDelivered(h, wait.arms);
    if Claimed(h, wait.mark) { SameDelivered(w.h, h, wait.arms); }
    hide Structure, Polling, Inv, SendsEnded, ArmsFine, Others, Live, Ledger, After, Books, Resolve;
    if d.Some? {
      DeliveredEnds(w, h, t, d.value);
      DeliveredBooks(w, h, t, d.value);
    } else {
      PollFromOutcome(h, t, wait, 0, Wake(t), true);
      SameBooks(w.h, h, PollWait(h, t, wait, Wake(t)).0, wait.arms, wait.arms, PollWait(h, t, wait, Wake(t)).2);
    }
  }

  /** A case whose offer was taken is the one chosen, whatever else is ready, also on a cancel. */
  lemma DeliveredIsChosen(w: World, t: Task, o: nat)
    requires Reachable(w) && t in w.waits && w.waits[t].mark.Some?
    requires o < |w.h.offers| && w.h.offers[o].select == w.waits[t].mark && w.h.offers[o].state == Taken
    ensures var wait := w.waits[t];
      exists d: nat :: d < |wait.arms| && wait.arms[d].Send?
        && Delivered(w.h, wait.arms[d]) && wait.arms[d].offer == Some(o)
        && PollWait(Asleep(w.h, t), t, wait, Wake(t)).2 == Chosen(d, Sent)
        && CancelWait(w.h, wait).1 == Chosen(d, Sent)
  {
    hide Inv, Delivered, Reachable;
    ReachableInv(w);
    var d := DeliveredCase(w, t, o);
    DeliveredOnce(w, t, d);
    SoleDelivered(w.h, w.waits[t].arms, d);
    AsleepDelivered(w.h, t, w.waits[t].arms);
    SoleDelivered(Asleep(w.h, t), w.waits[t].arms, d);
  }

  /** A claimed select has a delivered case: the one whose offer was taken. */
  lemma DeliveredCase(w: World, t: Task, o: nat) returns (d: nat)
    requires Inv(w) && t in w.waits && w.waits[t].mark.Some?
    requires o < |w.h.offers| && w.h.offers[o].select == w.waits[t].mark && w.h.offers[o].state == Taken
    ensures d < |w.waits[t].arms| && w.waits[t].arms[d].Send?
    ensures Delivered(w.h, w.waits[t].arms[d]) && w.waits[t].arms[d].offer == Some(o)
  {
    hide ChansOk, WaitersOk, Live, Ledger;
    var wait := w.waits[t];
    assert WaitOk(w.h, t, wait) && OfferOk(w.h, o);
    d :| d < |wait.arms| && Delivered(w.h, wait.arms[d]);
    assert Fine(w.h, wait.arms[d], Owner(t, d), wait.mark, d in All(|wait.arms|));
    SameTaken(w.h, wait.arms[d].offer.value, o);
  }

  lemma SameTaken(h: Heap, a: nat, b: nat)
    requires OffersApart(h) && a < |h.offers| && b < |h.offers|
    requires h.offers[a].state == Taken && h.offers[b].state == Taken
    requires h.offers[a].select.Some? && h.offers[a].select == h.offers[b].select
    ensures a == b
  {
    assert a < b ==> Apart(h.offers[a], h.offers[b]);
    assert b < a ==> Apart(h.offers[b], h.offers[a]);
  }

  /** The only delivered case is the first. */
  lemma SoleDelivered(h: Heap, arms: seq<Arm>, d: nat)
    requires d < |arms| && Delivered(h, arms[d])
    requires forall j: nat :: j < |arms| && j != d ==> !Delivered(h, arms[j])
    ensures FirstDelivered(h, arms) == Some(d)
  {
    hide Delivered;
    var f := FirstDelivered(h, arms);
  }

  lemma AsleepDelivered(h: Heap, t: Task, arms: seq<Arm>)
    ensures forall j: nat :: j < |arms| ==> Delivered(Asleep(h, t), arms[j]) == Delivered(h, arms[j])
  {
  }

  /** No value sent by a select is received by a case of that select. */
  lemma NeverOwnValue(w: World, t: Task)
    requires Reachable(w) && t in w.waits && w.waits[t].mark.Some?
    ensures var out := PollWait(Asleep(w.h, t), t, w.waits[t], Wake(t)).2;
      out.Chosen? && out.out.Received? ==> out.out.item.origin != w.waits[t].mark
  {
    ReachableInv(w);
    var wait := w.waits[t];
    var h := Asleep(w.h, t);
    assert WaitOk(w.h, t, wait);
    AsleepGround(w, t);
    InvPolling(w, t);
    if FirstDelivered(h, wait.arms).None? {
      if Claimed(h, wait.mark) { SameDelivered(w.h, h, wait.arms); }
      hide Structure, Polling, Inv, Ground;
      PollFromOrigin(h, w.waits, t, wait, 0, Wake(t), true);
    }
  }

  /**
   A cancelled wait either resolves with its delivered send case, or reports
   the cancel with every send refused; it receives and accepts nothing.
   */
  lemma CancelEnds(w: World, t: Task)
    requires Reachable(w) && t in w.waits
    ensures var (h', out) := CancelWait(w.h, w.waits[t]);
      && h'.accepted == w.h.accepted && h'.handed == w.h.handed
      && (out.Chosen? ==> out.out.Sent? && SendsEnded(h', w.waits[t].arms, out.case_, Sent))
      && (out.Waiting? ==> AllRefused(h', w.waits[t].arms))
  {
    ReachableInv(w);
    var wait := w.waits[t];
    InvPolling(w, t);
    var d := FirstDelivered(w.h, wait.arms);
    if d.Some? {
      PolledBefore(w.h, t, wait);
      DeliveredEnds(w, w.h, t, d.value);
      WithdrawFromHands(Claim(w.h, wait.mark), wait.arms, 0, d);
    } else {
      WithdrawAllEnds(w, t);
    }
  }

  lemma PolledBefore(h: Heap, t: Task, wait: Wait)
    requires Polling(h, t, wait, All(|wait.arms|), true)
    ensures Polling(h, t, wait, {}, true)
  {
    forall i: nat | i < |wait.arms| ensures Fine(h, wait.arms[i], Owner(t, i), wait.mark, true && i in {}) {
      assert Fine(h, wait.arms[i], Owner(t, i), wait.mark, true && i in All(|wait.arms|));
    }
  }

  ghost predicate AllRefused(h: Heap, arms: seq<Arm>) {
    forall j: nat :: j < |arms| && arms[j].Send? ==>
      arms[j].item.serial < |h.sends| && h.sends[arms[j].item.serial] == Refused
  }

  /** A dropped wait ends each send: as accepted if its offer was taken, as refused otherwise. */
  lemma WithdrawAllEnds(w: World, t: Task)
    requires Inv(w) && t in w.waits
    ensures var h' := WithdrawFrom(w.h, w.waits[t].arms, 0, None);
      && h'.accepted == w.h.accepted && h'.handed == w.h.handed
      && forall j: nat :: j < |w.waits[t].arms| && w.waits[t].arms[j].Send? ==>
           EndsOne(w.h, h', w.waits[t].arms[j], true)
  {
    var wait := w.waits[t];
    InvPolling(w, t);
    WithdrawFromHands(w.h, wait.arms, 0, None);
    ReadyToWithdraw(w.h, t, wait, All(|wait.arms|), true, None);
    forall j: nat | j < |wait.arms| && wait.arms[j].Send? && None != Some(j)
      ensures EndsOne(w.h, w.h, wait.arms[j], j < 0)
    {
      assert Fine(w.h, wait.arms[j], Owner(t, j), wait.mark, true && j in All(|wait.arms|));
    }
    WithdrawFromEnds(w.h, w.h, t, wait.arms, wait.mark, 0, None);
    var h' := WithdrawFrom(w.h, wait.arms, 0, None);
    forall j: nat | j < |wait.arms| && wait.arms[j].Send? ensures EndsOne(w.h, h', wait.arms[j], true) {
      assert EndsOne(w.h, h', wait.arms[j], j < |wait.arms|);
    }
  }

  /** The end of a send is final: a refused value is never in a channel or with a receiver again. */
  lemma RefusedForever(w: World, ops: seq<Op>, w': World, item: Item)
    requires Reachable(w) && RunsTo(w, ops, w')
    requires item.serial < |w.h.sends| && w.h.sends[item.serial] == Refused
    ensures w'.h.handed[item] == 0 && Stored(w'.h, item) == 0
  {
    ReachableInv(w);
    RunKeeps(w, ops, w');
    assert w'.h.sends[item.serial] == Refused;
    assert Balance(w'.h, item, 0);
    assert item !in w'.h.accepted;
  }

  /** An accepted value stays accepted: it is with a receiver or stored, once. */
  lemma AcceptedForever(w: World, ops: seq<Op>, w': World, k: nat)
    requires Reachable(w) && RunsTo(w, ops, w')
    requires k < |w.h.sends| && w.h.sends[k] == Accepted
    ensures k < |w'.h.sends| && w'.h.sends[k] == Accepted
  {
    ReachableInv(w);
    RunKeeps(w, ops, w');
  }
}
