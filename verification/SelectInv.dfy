/** The invariant of the tasks and channels of a VM, and why every step of a wait keeps it. */
module SelectInv {
  import opened Basics
  import opened ChanSpec
  import opened ChanInv
  import opened ChanArm
  import opened ChanLedger
  import opened ChanProgress
  import opened SelectSpec

  // ---- the invariant ------------------------------------------------------

  function All(n: nat): (r: set<nat>)
    ensures forall i: nat :: i in r <==> i < n
  {
    if n == 0 then {} else All(n - 1) + {n - 1}
  }

  ghost predicate ArmsFine(h: Heap, t: Task, arms: seq<Arm>, mark: Option<nat>, quiet: set<nat>) {
    forall i {:trigger arms[i]} :: 0 <= i < |arms| ==> Fine(h, arms[i], Owner(t, i), mark, i in quiet)
  }

  ghost predicate SomeDelivered(h: Heap, arms: seq<Arm>) {
    exists i :: 0 <= i < |arms| && Delivered(h, arms[i])
  }

  ghost predicate Shape(wait: Wait) {
    && wait.start < |wait.arms|
    && (wait.mark.None? ==> |wait.arms| == 1)
    && (forall i :: 0 <= i < |wait.arms| ==> !(wait.arms[i].Send? && wait.arms[i].eager))
  }

  /** Every case is quiet or the task awake, and a claimed select has its case. */
  ghost predicate WaitOk(h: Heap, t: Task, wait: Wait) {
    && Shape(wait)
    && ArmsFine(h, t, wait.arms, wait.mark, All(|wait.arms|))
    && (Claimed(h, wait.mark) ==> SomeDelivered(h, wait.arms))
  }

  predicate OwnerLive(waits: map<Task, Wait>, own: Owner) {
    own.task in waits && own.idx < |waits[own.task].arms|
  }

  /** Only cases of waits in progress have open offers or queued waiters. */
  ghost predicate Live(h: Heap, waits: map<Task, Wait>) {
    forall own: Owner :: !OwnerLive(waits, own) ==> Fine(h, Other(false), own, None, false)
  }

  ghost predicate Others(h: Heap, waits: map<Task, Wait>, t: Task) {
    forall u :: u in waits && u != t ==> WaitOk(h, u, waits[u])
  }

  ghost predicate Balanced(h: Heap) {
    forall x: Item :: Balance(h, x, 0)
  }

  ghost predicate Ledger(h: Heap, busy: Option<nat>) {
    Balanced(h) && Accepts(h, busy)
  }

  ghost predicate Inv(w: World) {
    && Structure(w.h)
    && (forall t :: t in w.waits ==> WaitOk(w.h, t, w.waits[t]))
    && Live(w.h, w.waits)
    && Ledger(w.h, None)
  }

  // ---- steps that respect other cases -------------------------------------

  /** Cases of owners outside `mine` stay fine. */
  ghost predicate Respects(h: Heap, h': Heap, mine: iset<Owner>) {
    forall arm, own, mark, q ::
      own !in mine && Fine(h, arm, own, mark, q) ==> Fine(h', arm, own, mark, q)
  }

  ghost predicate TakenNow(h: Heap, h': Heap, m: nat) {
    exists o :: 0 <= o < |h.offers| && o < |h'.offers|
      && h.offers[o].state == Open && h'.offers[o].state == Taken && h.offers[o].select == Some(m)
  }

  /** A mark becomes claimed only by its own select or because an offer of it was taken. */
  ghost predicate ClaimSource(h: Heap, h': Heap, mark: Option<nat>) {
    forall m: nat :: Claimed(h', Some(m)) ==> Claimed(h, Some(m)) || mark == Some(m) || TakenNow(h, h', m)
  }

  lemma DeliveredAfter(h: Heap, h': Heap, arms: seq<Arm>)
    requires After(h, h') && SomeDelivered(h, arms)
    ensures SomeDelivered(h', arms)
  {
    var i :| 0 <= i < |arms| && Delivered(h, arms[i]);
    assert OfferAfter(h.offers[arms[i].offer.value], h'.offers[arms[i].offer.value]);
    assert Delivered(h', arms[i]);
  }

  /** The case behind a taken offer of `u`'s select is delivered. */
  lemma TakenDelivers(h: Heap, h': Heap, waits: map<Task, Wait>, u: Task, m: nat)
    requires Structure(h) && Live(h, waits) && u in waits && WaitOk(h, u, waits[u])
    requires waits[u].mark == Some(m) && TakenNow(h, h', m)
    ensures SomeDelivered(h', waits[u].arms)
  {
    var arms := waits[u].arms;
    var o :| 0 <= o < |h.offers| && o < |h'.offers|
      && h.offers[o].state == Open && h'.offers[o].state == Taken && h.offers[o].select == Some(m);
    var own := h.offers[o].owner;
    assert OfferOk(h, o);
    assert Fine(h, arms[0], Owner(u, 0), Some(m), 0 in All(|arms|));
    assert own.task == u;
    assert !OwnerLive(waits, own) ==> Fine(h, Other(false), own, None, false);
    assert Fine(h, arms[own.idx], own, Some(m), own.idx in All(|arms|));
    assert Delivered(h', arms[own.idx]);
  }

  lemma OthersStep(h: Heap, h': Heap, waits: map<Task, Wait>, t: Task, mine: iset<Owner>, mark: Option<nat>)
    requires Structure(h) && Live(h, waits) && Others(h, waits, t)
    requires Respects(h, h', mine) && (forall own :: own in mine ==> own.task == t)
    requires After(h, h') && ClaimSource(h, h', mark)
    requires mark.Some? ==> mark.value < |h.marks| && h.marks[mark.value].owner == t
    ensures Others(h', waits, t)
  {
    forall u | u in waits && u != t ensures WaitOk(h', u, waits[u]) {
      var wait := waits[u];
      var all := All(|wait.arms|);
      assert ArmsFine(h', u, wait.arms, wait.mark, all);
      if Claimed(h', wait.mark) {
        assert Fine(h, wait.arms[0], Owner(u, 0), wait.mark, 0 in all);
        var m := wait.mark.value;
        if Claimed(h, Some(m)) { DeliveredAfter(h, h', wait.arms); }
        else { TakenDelivers(h, h', waits, u, m); }
      }
    }
  }

  lemma LiveStep(h: Heap, h': Heap, waits: map<Task, Wait>, mine: iset<Owner>)
    requires Live(h, waits) && Respects(h, h', mine)
    requires forall own :: own in mine ==> OwnerLive(waits, own)
    ensures Live(h', waits)
  {
  }

  // ---- one case -----------------------------------------------------------

  lemma PollArmRespects(h: Heap, arm: Arm, me: Owner, mark: Option<nat>, w: Waker)
    requires Structure(h) && ArmOk(h, arm, me, mark)
    ensures Respects(h, PollArm(h, arm, me, mark, w).h, iset{me})
  {
    forall arm2, own2, mark2, q | own2 !in iset{me} && Fine(h, arm2, own2, mark2, q)
      ensures Fine(PollArm(h, arm, me, mark, w).h, arm2, own2, mark2, q)
    {
      PollArmFine(h, arm, me, mark, w, arm2, own2, mark2, q);
    }
  }

  lemma WithdrawArmRespects(h: Heap, arm: Arm, me: Owner, mark: Option<nat>)
    requires Structure(h) && ArmOk(h, arm, me, mark)
    ensures Respects(h, WithdrawArm(h, arm).0, iset{me})
  {
    forall arm2, own2, mark2, q | own2 !in iset{me} && Fine(h, arm2, own2, mark2, q)
      ensures Fine(WithdrawArm(h, arm).0, arm2, own2, mark2, q)
    {
      WithdrawArmFine(h, arm, me, mark, arm2, own2, mark2, q);
    }
  }

  lemma ClaimRespects(h: Heap, mark: Option<nat>)
    requires Structure(h)
    ensures Respects(h, Claim(h, mark), iset{})
  {
    forall arm2, own2, mark2, q | Fine(h, arm2, own2, mark2, q)
      ensures Fine(Claim(h, mark), arm2, own2, mark2, q)
    {
      ClaimFine(h, mark, arm2, own2, mark2, q);
    }
  }

  lemma TakeOfferClaims(h: Heap, c: nat, o: nat, me: Option<nat>)
    requires Structure(h) && c < |h.chans| && o < |h.offers| && Eligible(h, o, me)
    ensures ClaimSource(h, TakeOffer(h, c, o), None)
  {
    var h' := TakeOffer(h, c, o);
    forall m: nat | Claimed(h', Some(m)) && !Claimed(h, Some(m)) ensures TakenNow(h, h', m) {
      assert h'.offers[o].state == Taken;
    }
  }

  lemma SameMarksClaims(h: Heap, h': Heap)
    requires h'.marks == h.marks
    ensures ClaimSource(h, h', None)
  {
  }

  lemma PollRendezvousClaims(h: Heap, arm: Arm, me: Owner, mark: Option<nat>, w: Waker)
    requires Structure(h) && arm.Recv? && ArmRefs(h, arm)
    ensures ClaimSource(h, PollRendezvous(h, arm, me, mark, w).h, None)
    ensures Claimed(PollRendezvous(h, arm, me, mark, w).h, mark) == Claimed(h, mark)
  {
    hide Structure, ClaimSource, TakeOffer, PostWaiter, PopFront;
    var s := PollRendezvous(h, arm, me, mark, w);
    var core := h.chans[arm.chan];
    var k := FindOffer(h, core.offers, mark);
    if k.Some? && core.buf == [] && !(arm.waiter.Some? && h.waiters[arm.waiter.value].slot.Some?) {
      var o := core.offers[k.value];
      TakenClaims(h, arm.chan, o, mark);
      TakeOfferClaims(h, arm.chan, o, mark);
      ForgetClaims(h, TakeOffer(h, arm.chan, o), arm.chan, arm.waiter);
    } else {
      OtherMarks(h, arm, me, mark, w);
      SameMarksClaims(h, s.h);
    }
  }

  /** Taking another select's offer leaves the claim of `me` as it was. */
  lemma TakenClaims(h: Heap, c: nat, o: nat, me: Option<nat>)
    requires c < |h.chans| && o < |h.offers| && Eligible(h, o, me)
    ensures |TakeOffer(h, c, o).chans| == |h.chans|
    ensures Claimed(TakeOffer(h, c, o), me) == Claimed(h, me)
  {
  }

  lemma OtherMarks(h: Heap, arm: Arm, me: Owner, mark: Option<nat>, w: Waker)
    requires arm.Recv? && ArmRefs(h, arm)
    requires FindOffer(h, h.chans[arm.chan].offers, mark).None? || h.chans[arm.chan].buf != []
      || (arm.waiter.Some? && h.waiters[arm.waiter.value].slot.Some?)
    ensures PollRendezvous(h, arm, me, mark, w).h.marks == h.marks
  {
    hide TakeOffer;
  }

  lemma ForgetClaims(h: Heap, h1: Heap, c: nat, w: Option<nat>)
    requires c < |h1.chans| && ClaimSource(h, h1, None)
    ensures ClaimSource(h, Forget(h1, c, w), None)
  {
    var h2 := Forget(h1, c, w);
    forall m: nat | Claimed(h2, Some(m)) && !Claimed(h, Some(m)) ensures TakenNow(h, h2, m) {
      assert Claimed(h1, Some(m));
    }
  }

  lemma PollArmClaims(h: Heap, arm: Arm, me: Owner, mark: Option<nat>, w: Waker)
    requires Structure(h) && ArmOk(h, arm, me, mark)
    ensures ClaimSource(h, PollArm(h, arm, me, mark, w).h, None)
    ensures Claimed(PollArm(h, arm, me, mark, w).h, mark) == Claimed(h, mark)
  {
    if arm.Recv? && h.chans[arm.chan].cap == 0 { PollRendezvousClaims(h, arm, me, mark, w); }
    else { SameMarksClaims(h, PollArm(h, arm, me, mark, w).h); }
  }
}
