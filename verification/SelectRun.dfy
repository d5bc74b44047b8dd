/** Every reachable state of the tasks and channels satisfies the invariant. */
module SelectRun {
  import opened Basics
  import opened ChanSpec
  import opened ChanInv
  import opened ChanArm
  import opened ChanLedger
  import opened ChanProgress
  import opened SelectSpec
  import opened SelectInv
  import opened SelectPoll

  // ---- operations of nobody's wait --------------------------------------------

  /** The heap with more channels, marks and sends, all unused. */
  ghost predicate Grows(h: Heap, h': Heap) {
    && h' == h.(chans := h'.chans, marks := h'.marks, sends := h'.sends)
    && |h.chans| <= |h'.chans| && h'.chans[..|h.chans|] == h.chans
    && |h.marks| <= |h'.marks| && h'.marks[..|h.marks|] == h.marks
    && |h.sends| <= |h'.sends| && h'.sends[..|h.sends|] == h.sends
    && (forall c :: |h.chans| <= c < |h'.chans| ==> h'.chans[c] == FreshChan(h'.chans[c].cap))
    && (forall m :: |h.marks| <= m < |h'.marks| ==> !h'.marks[m].claimed)
  }

  lemma GrowsStructure(h: Heap, h': Heap)
    requires Structure(h) && Grows(h, h')
    ensures Structure(h')
  {
    assert forall c :: 0 <= c < |h.chans| ==> h'.chans[c] == h'.chans[..|h.chans|][c];
    assert forall m :: 0 <= m < |h.marks| ==> h'.marks[m] == h'.marks[..|h.marks|][m];
    assert forall k :: 0 <= k < |h.sends| ==> h'.sends[k] == h'.sends[..|h.sends|][k];
  }

  lemma GrowsFine(h: Heap, h': Heap, arm: Arm, own: Owner, mark: Option<nat>, q: bool)
    requires Structure(h) && Grows(h, h') && Fine(h, arm, own, mark, q)
    ensures Fine(h', arm, own, mark, q)
  {
    hide Structure;
    assert forall c :: 0 <= c < |h.chans| ==> h'.chans[c] == h'.chans[..|h.chans|][c];
    assert forall m :: 0 <= m < |h.marks| ==> h'.marks[m] == h'.marks[..|h.marks|][m];
    assert forall k :: 0 <= k < |h.sends| ==> h'.sends[k] == h'.sends[..|h.sends|][k];
    GrowsHeld(h, h', arm, own);
    hide Grows, Held;
  }

  lemma GrowsHeld(h: Heap, h': Heap, arm: Arm, own: Owner)
    requires Grows(h, h') && Held(h, arm, own)
    requires forall c :: 0 <= c < |h.chans| ==> h'.chans[c] == h.chans[c]
    ensures Held(h', arm, own)
  {
  }

  lemma GrowsAfter(h: Heap, h': Heap)
    requires Grows(h, h')
    ensures After(h, h')
  {
    forall c | 0 <= c < |h.chans| ensures Fifo(h.chans[c], h'.chans[c]) {
      assert h'.chans[c] == h'.chans[..|h.chans|][c];
      FifoRefl(h.chans[c]);
    }
    forall c | |h.chans| <= c < |h'.chans| ensures Fifo(FreshChan(h'.chans[c].cap), h'.chans[c]) {
      FifoRefl(h'.chans[c]);
    }
    assert forall m :: 0 <= m < |h.marks| ==> h'.marks[m] == h'.marks[..|h.marks|][m];
    assert forall k :: 0 <= k < |h.sends| ==> h'.sends[k] == h'.sends[..|h.sends|][k];
  }

  lemma GrowsClaims(h: Heap, h': Heap)
    requires Grows(h, h')
    ensures ClaimSource(h, h', None)
  {
    forall m: nat | Claimed(h', Some(m)) ensures Claimed(h, Some(m)) {
      assert m < |h.marks| ==> h'.marks[m] == h'.marks[..|h.marks|][m];
    }
  }

  lemma GrowsAccepts(h: Heap, h': Heap)
    requires Grows(h, h') && Accepts(h, None)
    ensures Accepts(h', None)
  {
    assert forall m :: 0 <= m < |h.marks| ==> h'.marks[m] == h'.marks[..|h.marks|][m];
    assert forall k :: 0 <= k < |h.sends| ==> h'.sends[k] == h'.sends[..|h.sends|][k];
    AcceptsNothingKeeps(h, h', None);
  }

  lemma GrowsBalanced(h: Heap, h': Heap)
    requires Grows(h, h') && |h'.chans| <= |h.chans| + 1 && Balanced(h)
    ensures Balanced(h')
  {
    forall x: Item ensures Balance(h', x, 0) {
      assert Balance(h, x, 0);
      assert forall c :: 0 <= c < |h.chans| ==> h'.chans[c] == h'.chans[..|h.chans|][c];
      assert InSlots(h', x) == InSlots(h, x);
      if |h'.chans| == |h.chans| {
        assert InBufs(h', x) == InBufs(h, x);
      } else {
        assert InBufs(h', x) == InBufs(h, x) + [0];
        SumAppend(InBufs(h, x), 0);
      }
    }
  }

  lemma GrowsRespects(h: Heap, h': Heap)
    requires Structure(h) && Grows(h, h')
    ensures Respects(h, h', iset{})
  {
    forall arm, own, mark, q | Fine(h, arm, own, mark, q) ensures Fine(h', arm, own, mark, q) {
      GrowsFine(h, h', arm, own, mark, q);
    }
  }

  lemma GrowsGround(h: Heap, h': Heap, waits: map<Task, Wait>, t: Task)
    requires Grows(h, h') && |h'.chans| <= |h.chans| + 1 && Ground(h, waits, t, None)
    ensures Ground(h', waits, t, None) && Respects(h, h', iset{}) && After(h, h')
  {
    hide Structure, Others, Live, After, ClaimSource, Accepts, Balance, Respects, Grows;
    GrowsStructure(h, h');
    GrowsRespects(h, h');
    GrowsAfter(h, h');
    GrowsClaims(h, h');
    GrowsAccepts(h, h');
    GrowsBalanced(h, h');
    OthersStep(h, h', waits, t, iset{}, None);
    LiveStep(h, h', waits, iset{});
  }

  // ---- the polled wait and the others ------------------------------------------

  lemma AsleepWait(h: Heap, t: Task, u: Task, wait: Wait)
    requires WaitOk(h, u, wait) && u != t
    ensures WaitOk(Asleep(h, t), u, wait)
  {
    var h' := Asleep(h, t);
    forall i | 0 <= i < |wait.arms| ensures Fine(h', wait.arms[i], Owner(u, i), wait.mark, i in All(|wait.arms|)) {
      assert Fine(h, wait.arms[i], Owner(u, i), wait.mark, i in All(|wait.arms|));
    }
    if Claimed(h, wait.mark) { SameDelivered(h, h', wait.arms); }
  }

  lemma AsleepGround(w: World, t: Task)
    requires Inv(w)
    ensures Ground(Asleep(w.h, t), w.waits, t, None) && After(w.h, Asleep(w.h, t))
  {
    hide WaitOk;
    var h' := Asleep(w.h, t);
    forall u | u in w.waits && u != t ensures WaitOk(h', u, w.waits[u]) {
      AsleepWait(w.h, t, u, w.waits[u]);
    }
    forall own: Owner | !OwnerLive(w.waits, own) ensures Fine(h', Other(false), own, None, false) {
      assert Fine(w.h, Other(false), own, None, false);
    }
    forall x: Item ensures Balance(h', x, 0) { SameBalance(w.h, h', x, 0); }
    QuietAfter(w.h, h');
  }

  lemma SameDelivered(h: Heap, h': Heap, arms: seq<Arm>)
    requires h'.offers == h.offers && SomeDelivered(h, arms)
    ensures SomeDelivered(h', arms)
  {
    var i :| 0 <= i < |arms| && Delivered(h, arms[i]);
    assert Delivered(h', arms[i]);
  }

  ghost predicate MarkOf(h: Heap, t: Task, mark: Option<nat>) {
    mark.Some? ==> mark.value < |h.marks| && h.marks[mark.value].owner == t
  }

  lemma ReadyToWithdraw(h: Heap, t: Task, wait: Wait, polled: set<nat>, live: bool, chosen: Option<nat>)
    requires Polling(h, t, wait, polled, live)
    requires chosen.Some? ==> chosen.value < |wait.arms| && Delivered(h, wait.arms[chosen.value])
    ensures Withdrawing(h, t, wait.arms, wait.mark, 0, chosen)
  {
    forall i: nat | i < |wait.arms|
      ensures DoneOrOk(h, wait.arms[i], Owner(t, i), wait.mark, i < 0 || chosen == Some(i))
    {
      assert Fine(h, wait.arms[i], Owner(t, i), wait.mark, live && i in polled);
    }
  }

  lemma WeakerGround(h: Heap, waits: map<Task, Wait>, t: Task, busy: Option<nat>)
    requires Ground(h, waits, t, None)
    ensures Ground(h, waits, t, busy)
  {
  }

  lemma PollWaitInv(h: Heap, waits: map<Task, Wait>, t: Task, wait: Wait, w: Waker, live: bool)
    requires Ground(h, waits, t, None) && t in waits && |waits[t].arms| == |wait.arms|
    requires (|wait.arms| > 0 ==> wait.start < |wait.arms|) && (live ==> w == Wake(t)) && MarkOf(h, t, wait.mark)
    requires Polling(h, t, wait, {}, live) && (Claimed(h, wait.mark) ==> SomeDelivered(h, wait.arms))
    ensures var (h', wait', out) := PollWait(h, t, wait, w);
      && PollResult(h', waits, t, wait', out, live) && After(h, h')
      && |wait'.arms| == |wait.arms| && wait'.mark == wait.mark && wait'.start == wait.start
  {
    hide Ground, After, Withdrawing, Polling;
    var d := FirstDelivered(h, wait.arms);
    if d.Some? {
      ReadyToWithdraw(h, t, wait, {}, live, d);
      WeakerGround(h, waits, t, wait.mark);
      ResolveInv(h, waits, t, wait, d.value);
    } else {
      PollFromInv(h, waits, t, wait, 0, w, live);
    }
  }

  /** The invariant from the parts: the wait of `t` is in order too. */
  lemma Together(h: Heap, waits: map<Task, Wait>, t: Task, wait: Wait)
    requires Ground(h, waits, t, None) && t in waits && |waits[t].arms| == |wait.arms|
    requires wait.start < |wait.arms| && (wait.mark.None? ==> |wait.arms| == 1)
    requires Polling(h, t, wait, All(|wait.arms|), true) && (Claimed(h, wait.mark) ==> SomeDelivered(h, wait.arms))
    ensures Inv(World(h, waits[t := wait]))
  {
    var waits' := waits[t := wait];
    forall own: Owner | !OwnerLive(waits', own) ensures Fine(h, Other(false), own, None, false) {
      assert !OwnerLive(waits, own);
    }
    forall u | u in waits' ensures WaitOk(h, u, waits'[u]) {
      if u == t {
        assert forall i: nat :: i < |wait.arms| ==> Fine(h, wait.arms[i], Owner(t, i), wait.mark, true &&
          i in All(|wait.arms|));
      }
    }
  }

  /** The invariant from the parts: the wait of `t` is over and left nothing behind. */
  lemma Gone(h: Heap, waits: map<Task, Wait>, t: Task)
    requires Ground(h, waits, t, None) && t in waits && AllReleased(h, t, |waits[t].arms|)
    ensures Inv(World(h, waits - {t}))
  {
    var waits' := waits - {t};
    forall own: Owner | !OwnerLive(waits', own) ensures Fine(h, Other(false), own, None, false) {
      if OwnerLive(waits, own) { assert Released(h, own); }
    }
  }

  lemma InvGround(w: World, t: Task)
    requires Inv(w)
    ensures Ground(w.h, w.waits, t, None)
  {
  }

  lemma InvPolling(w: World, t: Task)
    requires Inv(w) && t in w.waits
    ensures MarkOf(w.h, t, w.waits[t].mark)
    ensures Polling(w.h, t, w.waits[t], All(|w.waits[t].arms|), true)
    ensures Polling(Asleep(w.h, t), t, w.waits[t], {}, true)
  {
    var wait := w.waits[t];
    assert WaitOk(w.h, t, wait);
    forall i: nat | i < |wait.arms|
      ensures Fine(w.h, wait.arms[i], Owner(t, i), wait.mark, true && i in All(|wait.arms|))
      ensures Fine(Asleep(w.h, t), wait.arms[i], Owner(t, i), wait.mark, true && i in {})
      ensures SelectOk(w.h, wait.mark, Owner(t, i))
    {
      assert Fine(w.h, wait.arms[i], Owner(t, i), wait.mark, i in All(|wait.arms|));
    }
  }

  lemma PollInv(w: World, t: Task)
    requires Inv(w) && Enabled(w, Poll(t))
    ensures Inv(Apply(w, Poll(t))) && After(w.h, Apply(w, Poll(t)).h)
  {
    hide Ground, After, Polling, Structure, Live, Ledger;
    var wait := w.waits[t];
    var h0 := Asleep(w.h, t);
    assert WaitOk(w.h, t, wait);
    AsleepGround(w, t);
    InvPolling(w, t);
    if Claimed(w.h, wait.mark) { SameDelivered(w.h, h0, wait.arms); }
    PollWaitInv(h0, w.waits, t, wait, Wake(t), true);
    var (h1, wait1, out) := PollWait(h0, t, wait, Wake(t));
    AfterTrans(w.h, h0, h1);
    if out.Waiting? { Together(h1, w.waits, t, wait1); } else { Gone(h1, w.waits, t); }
  }

  lemma CancelInv(w: World, t: Task)
    requires Inv(w) && t in w.waits
    ensures Inv(Apply(w, Cancel(t))) && After(w.h, Apply(w, Cancel(t)).h)
    ensures Inv(Apply(w, Drop(t))) && After(w.h, Apply(w, Drop(t)).h)
  {
    hide Inv, After, Resolve, WithdrawFrom;
    DropInv(w, t);
    var d := FirstDelivered(w.h, w.waits[t].arms);
    if d.Some? { DeliveredInv(w, t, d.value); }
  }

  /** A wait that is over because an offer of it was taken. */
  lemma DeliveredInv(w: World, t: Task, d: nat)
    requires Inv(w) && t in w.waits && d < |w.waits[t].arms| && Delivered(w.h, w.waits[t].arms[d])
    ensures var h' := Resolve(w.h, w.waits[t], d); Inv(World(h', w.waits - {t})) && After(w.h, h')
  {
    hide Ground, After, Polling, Withdrawing, AllReleased, Inv, Delivered;
    var wait := w.waits[t];
    InvGround(w, t);
    InvPolling(w, t);
    ReadyToWithdraw(w.h, t, wait, All(|wait.arms|), true, Some(d));
    WeakerGround(w.h, w.waits, t, wait.mark);
    ResolveInv(w.h, w.waits, t, wait, d);
    Gone(Resolve(w.h, wait, d), w.waits, t);
  }

  /** A wait that is dropped. */
  lemma DropInv(w: World, t: Task)
    requires Inv(w) && t in w.waits
    ensures var h' := WithdrawFrom(w.h, w.waits[t].arms, 0, None);
      Inv(World(h', w.waits - {t})) && After(w.h, h')
  {
    hide Ground, After, Polling, Withdrawing, AllReleased, Inv;
    var wait := w.waits[t];
    InvGround(w, t);
    InvPolling(w, t);
    ReadyToWithdraw(w.h, t, wait, All(|wait.arms|), true, None);
    WithdrawFromInv(w.h, w.waits, t, wait.arms, wait.mark, 0, None, None);
    var h1 := WithdrawFrom(w.h, wait.arms, 0, None);
    WithdrawnReleased(h1, t, wait.arms, wait.mark, None);
    Gone(h1, w.waits, t);
  }

  // ---- starting a wait ----------------------------------------------------------

  /** The heap in which a new wait of `t` starts. */
  function Started(h: Heap, t: Task, n: nat, select: bool): Heap {
    AddSends(if select then AddMark(h, t) else h, t, n)
  }

  lemma StartedGrows(h: Heap, t: Task, n: nat, select: bool)
    ensures Grows(h, Started(h, t, n, select))
  {
  }

  /** The cases of a new wait agree with the heap: nothing is posted yet. */
  lemma NewCases(h: Heap, t: Task, cases: seq<Case>, start: nat, select: bool, eager: bool)
    requires forall c :: c in cases ==> CaseOk(h, c)
    requires forall i: nat :: Released(h, Owner(t, i))
    ensures var h1 := Started(h, t, |cases|, select);
      var mark := if select then Some(|h.marks|) else None;
      Polling(h1, t, Wait(BuildArms(cases, |h.sends|, mark, eager), start, mark), {}, false)
  {
    var h1 := Started(h, t, |cases|, select);
    var mark := if select then Some(|h.marks|) else None;
    var wait := Wait(BuildArms(cases, |h.sends|, mark, eager), start, mark);
    forall i: nat | i < |cases| ensures Fine(h1, wait.arms[i], Owner(t, i), mark, false) {
      assert cases[i] in cases;
      assert Released(h, Owner(t, i));
      assert h1.sends[|h.sends| + i] == InFlight(Owner(t, i));
    }
  }

  lemma AwakePolling(h: Heap, t: Task, wait: Wait)
    requires Polling(h, t, wait, {}, false)
    requires forall i: nat :: i < |wait.arms| ==> !(wait.arms[i].Send? && wait.arms[i].eager)
    ensures Polling(Awake(h, t), t, wait, All(|wait.arms|), true)
  {
    forall i: nat | i < |wait.arms|
      ensures Fine(Awake(h, t), wait.arms[i], Owner(t, i), wait.mark, true && i in All(|wait.arms|))
    {
      assert Fine(h, wait.arms[i], Owner(t, i), wait.mark, false && i in {});
    }
  }

  lemma AwakeRespects(h: Heap, t: Task)
    ensures Respects(h, Awake(h, t), iset{})
  {
    forall arm, own, mark, q | Fine(h, arm, own, mark, q) ensures Fine(Awake(h, t), arm, own, mark, q) {}
  }

  lemma AwakeGround(h: Heap, waits: map<Task, Wait>, t: Task)
    requires Ground(h, waits, t, None)
    ensures Ground(Awake(h, t), waits, t, None) && After(h, Awake(h, t))
  {
    var h' := Awake(h, t);
    assert Structure(h');
    QuietAfter(h, h');
    SameMarksClaims(h, h');
    AwakeRespects(h, t);
    hide Structure, Live, Others, After, Respects, ClaimSource;
    OthersStep(h, h', waits, t, iset{}, None);
    LiveStep(h, h', waits, iset{});
    forall x: Item ensures Balance(h', x, 0) { SameBalance(h, h', x, 0); }
  }

  /** A task that starts to wait is one more task in the map. */
  lemma JoinGround(h: Heap, waits: map<Task, Wait>, t: Task, wait: Wait)
    requires Ground(h, waits, t, None) && t !in waits
    ensures Ground(h, waits[t := wait], t, None)
  {
    var waits' := waits[t := wait];
    forall own: Owner | !OwnerLive(waits', own) ensures Fine(h, Other(false), own, None, false) {
      assert !OwnerLive(waits, own);
    }
  }

  lemma IdleReleased(h: Heap, waits: map<Task, Wait>, t: Task)
    requires Live(h, waits) && t !in waits
    ensures forall i: nat :: Released(h, Owner(t, i))
  {
    forall i: nat ensures Released(h, Owner(t, i)) {
      assert Fine(h, Other(false), Owner(t, i), None, false);
    }
  }

  lemma NewMark(h: Heap, t: Task, n: nat, select: bool)
    ensures !Claimed(Started(h, t, n, select), if select then Some(|h.marks|) else None)
    ensures !Claimed(Awake(Started(h, t, n, select), t), if select then Some(|h.marks|) else None)
  {
  }

  lemma NotEager(cases: seq<Case>, base: nat, mark: Option<nat>)
    ensures var arms := BuildArms(cases, base, mark, false);
      forall i: nat :: i < |arms| ==> !(arms[i].Send? && arms[i].eager)
  {
  }

  lemma IdleLive(w: World, t: Task)
    requires Inv(w) && t !in w.waits
    ensures forall i: nat :: Released(w.h, Owner(t, i))
  {
    IdleReleased(w.h, w.waits, t);
  }

  lemma StartInv(w: World, t: Task, cases: seq<Case>, start: nat, select: bool)
    requires Inv(w) && t !in w.waits && start < |cases| && (!select ==> |cases| == 1)
    requires forall c :: c in cases ==> CaseOk(w.h, c)
    ensures var h1 := Started(w.h, t, |cases|, select);
      var mark := if select then Some(|w.h.marks|) else None;
      var wait := Wait(BuildArms(cases, |w.h.sends|, mark, false), start, mark);
      && Inv(World(Awake(h1, t), w.waits[t := wait])) && After(w.h, Awake(h1, t))
  {
    var h1 := Started(w.h, t, |cases|, select);
    var mark := if select then Some(|w.h.marks|) else None;
    var wait := Wait(BuildArms(cases, |w.h.sends|, mark, false), start, mark);
    NewMark(w.h, t, |cases|, select);
    NotEager(cases, |w.h.sends|, mark);
    IdleLive(w, t);
    hide Ground, After, Polling, Grows, Released, Respects, Inv, Started, BuildArms, SomeDelivered;
    InvGround(w, t);
    StartedGrows(w.h, t, |cases|, select);
    GrowsGround(w.h, h1, w.waits, t);
    NewCases(w.h, t, cases, start, select, false);
    AwakePolling(h1, t, wait);
    AwakeGround(h1, w.waits, t);
    AfterTrans(w.h, h1, Awake(h1, t));
    JoinGround(Awake(h1, t), w.waits, t, wait);
    Together(Awake(h1, t), w.waits[t := wait], t, wait);
    assert w.waits[t := wait][t := wait] == w.waits[t := wait];
  }

  /** Back to the waits without `t`, which left nothing behind. */
  lemma LeaveGround(h: Heap, waits: map<Task, Wait>, t: Task, wait: Wait)
    requires Ground(h, waits[t := wait], t, None) && t !in waits && AllReleased(h, t, |wait.arms|)
    ensures Inv(World(h, waits))
  {
    Gone(h, waits[t := wait], t);
    assert waits[t := wait] - {t} == waits;
  }

  lemma CheckNowInv(w: World, t: Task, cases: seq<Case>, start: nat)
    requires Inv(w) && Enabled(w, CheckNow(t, cases, start))
    ensures Inv(Apply(w, CheckNow(t, cases, start))) && After(w.h, Apply(w, CheckNow(t, cases, start)).h)
  {
    var h1 := Started(w.h, t, |cases|, true);
    var mark := Some(|w.h.marks|);
    var wait := Wait(BuildArms(cases, |w.h.sends|, mark, true), start, mark);
    var waits := w.waits[t := wait];
    assert !Claimed(h1, mark) && MarkOf(h1, t, mark);
    IdleReleased(w.h, w.waits, t);
    hide Structure, Others, Live, Ledger, After, Polling, Withdrawing, AllReleased;
    InvGround(w, t);
    StartedGrows(w.h, t, |cases|, true);
    GrowsGround(w.h, h1, w.waits, t);
    NewCases(w.h, t, cases, start, true, true);
    JoinGround(h1, w.waits, t, wait);
    PollWaitInv(h1, waits, t, wait, Noop, false);
    var (h2, wait2, out) := PollWait(h1, t, wait, Noop);
    AfterTrans(w.h, h1, h2);
    if out.Waiting? {
      DefaultInv(h1, h2, waits, t, wait2);
      var h3 := WithdrawFrom(Claim(h2, mark), wait2.arms, 0, None);
      AfterTrans(w.h, h2, h3);
      LeaveGround(h3, w.waits, t, wait);
    } else {
      LeaveGround(h2, w.waits, t, wait);
    }
  }

  /** When no case is ready, the default runs with every case withdrawn. */
  lemma DefaultInv(h1: Heap, h2: Heap, waits: map<Task, Wait>, t: Task, wait: Wait)
    requires Ground(h2, waits, t, None) && t in waits && |waits[t].arms| == |wait.arms|
    requires Polling(h2, t, wait, All(|wait.arms|), false)
    requires MarkOf(h1, t, wait.mark) && After(h1, h2)
    ensures var h3 := WithdrawFrom(Claim(h2, wait.mark), wait.arms, 0, None);
      Ground(h3, waits, t, None) && AllReleased(h3, t, |wait.arms|) && After(h2, h3)
  {
    assert MarkOf(h2, t, wait.mark);
    hide Structure, Others, Live, Ledger, After, Polling, Withdrawing, AllReleased;
    var hc := Claim(h2, wait.mark);
    WeakerGround(h2, waits, t, wait.mark);
    ClaimGround(h2, waits, t, wait.mark);
    ReadyToWithdraw(h2, t, wait, All(|wait.arms|), false, None);
    ClaimCases(h2, t, wait.arms, wait.mark, None);
    WithdrawFromInv(hc, waits, t, wait.arms, wait.mark, 0, None, None);
    var h3 := WithdrawFrom(hc, wait.arms, 0, None);
    AfterTrans(h2, hc, h3);
    WithdrawnReleased(h3, t, wait.arms, wait.mark, None);
  }

  // ---- calls that do not wait -----------------------------------------------------

  /** A call by nobody's wait that respects every case keeps the invariant. */
  lemma CallInv(w: World, h': Heap)
    requires Inv(w) && Structure(h') && Ledger(h', None)
    requires Respects(w.h, h', iset{}) && After(w.h, h') && ClaimSource(w.h, h', None)
    ensures Inv(World(h', w.waits))
  {
    hide Structure, Ledger, Respects, After, ClaimSource;
    forall t | t in w.waits ensures WaitOk(h', t, w.waits[t]) {
      InvGround(w, t + 1);
      OthersStep(w.h, h', w.waits, t + 1, iset{}, None);
    }
    LiveStep(w.h, h', w.waits, iset{});
  }

  lemma NewChanInv(w: World, cap: nat)
    requires Inv(w)
    ensures Inv(Apply(w, NewChan(cap))) && After(w.h, Apply(w, NewChan(cap)).h)
  {
    var h' := Apply(w, NewChan(cap)).h;
    assert Grows(w.h, h');
    hide Structure, Others, Live, After, ClaimSource, Accepts, Balance, Respects;
    GrowsStructure(w.h, h');
    GrowsRespects(w.h, h');
    GrowsAfter(w.h, h');
    GrowsClaims(w.h, h');
    GrowsAccepts(w.h, h');
    GrowsBalanced(w.h, h');
    CallInv(w, h');
  }

  lemma CloseInv(w: World, c: nat)
    requires Inv(w) && c < |w.h.chans|
    ensures Inv(Apply(w, DoClose(c))) && After(w.h, Apply(w, DoClose(c)).h)
  {
    var h' := Close(w.h, c);
    forall arm, own, mark, q | Fine(w.h, arm, own, mark, q) ensures Fine(h', arm, own, mark, q) {
      CloseFine(w.h, c, arm, own, mark, q);
    }
    assert Respects(w.h, h', iset{});
    CloseLedger(w.h, c);
    CloseStructure(w.h, c);
    CloseAfter(w.h, c);
    SameMarksClaims(w.h, h');
    CallInv(w, h');
  }

  lemma CloseLedger(h: Heap, c: nat)
    requires Structure(h) && c < |h.chans| && Ledger(h, None)
    ensures Ledger(Close(h, c), None)
  {
    var h' := Close(h, c);
    forall k | k in SerialsOf(h.offers, h.chans[c].offers) ensures k < |h.sends| && h.sends[k].InFlight? {
      var o :| o in h.chans[c].offers && o < |h.offers| && h.offers[o].item.serial == k;
      assert OfferOk(h, o);
    }
    AcceptsNothingKeeps(h, h', None);
    forall x: Item ensures Balance(h', x, 0) { SameBalance(h, h', x, 0); }
  }

  lemma TryRecvInv(w: World, c: nat)
    requires Inv(w) && c < |w.h.chans|
    ensures Inv(Apply(w, DoTryRecv(c))) && After(w.h, Apply(w, DoTryRecv(c)).h)
  {
    var core := w.h.chans[c];
    var k := if core.cap == 0 then FindOffer(w.h, core.offers, None) else None;
    if core.buf != [] {
      PopInv(w, c);
    } else if k.Some? {
      assert core.offers[k.value] in core.offers;
      TakeInv(w, c, core.offers[k.value]);
    } else {
      AfterRefl(w.h);
    }
  }

  lemma PopInv(w: World, c: nat)
    requires Inv(w) && c < |w.h.chans| && w.h.chans[c].buf != []
    ensures Inv(World(PopFront(w.h, c), w.waits)) && After(w.h, PopFront(w.h, c))
  {
    var h' := PopFront(w.h, c);
    forall arm, own, mark, q | Fine(w.h, arm, own, mark, q) ensures Fine(h', arm, own, mark, q) {
      PopFrontFine(w.h, c, arm, own, mark, q);
    }
    assert Respects(w.h, h', iset{});
    PopFrontStructure(w.h, c);
    PopFrontAfter(w.h, c);
    AcceptsNothingKeeps(w.h, h', None);
    forall x: Item ensures Balance(h', x, 0) { PopFrontBalance(w.h, c, x); }
    SameMarksClaims(w.h, h');
    CallInv(w, h');
  }

  lemma TakeInv(w: World, c: nat, o: nat)
    requires Inv(w) && c < |w.h.chans| && o in w.h.chans[c].offers && Eligible(w.h, o, None)
    ensures Inv(World(TakeOffer(w.h, c, o), w.waits)) && After(w.h, TakeOffer(w.h, c, o))
  {
    var h' := TakeOffer(w.h, c, o);
    forall arm, own, mark, q | Fine(w.h, arm, own, mark, q) ensures Fine(h', arm, own, mark, q) {
      TakeOfferFine(w.h, c, o, None, arm, own, mark, q);
    }
    assert Respects(w.h, h', iset{});
    hide Structure, Live, Others, After, Respects, Accepts, Balance, ClaimSource;
    TakeOfferStructure(w.h, c, o, None);
    TakeOfferAfter(w.h, c, o, None);
    TakeOfferAccepts(w.h, c, o, None);
    forall x: Item ensures Balance(h', x, 0) { TakeOfferBalance(w.h, c, o, x); }
    TakeOfferClaims(w.h, c, o, None);
    CallInv(w, h');
  }

  lemma PutBackRespects(h: Heap, c: nat, item: Item)
    requires Structure(h) && c < |h.chans|
    ensures Structure(Unrecv(h, c, item)) && Respects(h, Unrecv(h, c, item), iset{})
  {
    var h0 := h.(handed := h.handed - multiset{item});
    HandedStructure(h, h0);
    PushFrontStructure(h0, c, item);
    hide Structure, PushFront, Fine;
    forall arm, own, mark, q | Fine(h, arm, own, mark, q) ensures Fine(PushFront(h0, c, item), arm, own, mark, q) {
      HandedFine(h, h0, arm, own, mark, q);
      PushFrontFine(h0, c, item, arm, own, mark, q);
    }
  }

  lemma HandedFine(h: Heap, h0: Heap, arm: Arm, own: Owner, mark: Option<nat>, q: bool)
    requires Fine(h, arm, own, mark, q) && h0 == h.(handed := h0.handed)
    ensures Fine(h0, arm, own, mark, q)
  {
  }

  lemma HandedStructure(h: Heap, h0: Heap)
    requires Structure(h) && h0 == h.(handed := h0.handed)
    ensures Structure(h0)
  {
  }

  lemma PutBackInv(w: World, c: nat, item: Item)
    requires Inv(w) && Enabled(w, PutBack(c, item))
    ensures Inv(Apply(w, PutBack(c, item))) && After(w.h, Apply(w, PutBack(c, item)).h)
  {
    hide Structure, Live, After, Respects, ClaimSource, Ledger, WaitOk, Unrecv;
    PutBackRespects(w.h, c, item);
    UnrecvAfter(w.h, c, item);
    PutBackLedger(w.h, c, item);
    CallInv(w, Unrecv(w.h, c, item));
  }

  lemma UnrecvAfter(h: Heap, c: nat, item: Item)
    requires c < |h.chans|
    ensures After(h, Unrecv(h, c, item)) && ClaimSource(h, Unrecv(h, c, item), None)
  {
    var h0 := h.(handed := h.handed - multiset{item});
    QuietAfter(h, h0);
    hide After;
    PushFrontAfter(h0, c, item);
    AfterTrans(h, h0, PushFront(h0, c, item));
    SameMarksClaims(h, Unrecv(h, c, item));
  }

  lemma PutBackLedger(h: Heap, c: nat, item: Item)
    requires c < |h.chans| && Ledger(h, None) && item in h.handed
    ensures Ledger(Unrecv(h, c, item), None)
  {
    var h0 := h.(handed := h.handed - multiset{item});
    AcceptsNothingKeeps(h, Unrecv(h, c, item), None);
    forall x: Item ensures Balance(Unrecv(h, c, item), x, 0) {
      assert Balance(h, x, 0);
      SameStored(h, h0, x);
      PushFrontBalance(h0, c, item, x);
    }
  }

  lemma MakeReadyPolling(h: Heap, t: Task, wait: Wait, i: nat)
    requires Polling(h, t, wait, All(|wait.arms|), true) && i < |wait.arms| && wait.arms[i].Other?
    ensures Polling(Awake(h, t), t, wait.(arms := wait.arms[i := Other(true)]), All(|wait.arms|), true)
  {
    var ready := wait.arms[i := Other(true)];
    forall j: nat | j < |ready| ensures Fine(Awake(h, t), ready[j], Owner(t, j), wait.mark, true && j in All(|ready|)) {
      assert Fine(h, wait.arms[j], Owner(t, j), wait.mark, true && j in All(|wait.arms|));
    }
  }

  lemma MakeReadyInv(w: World, t: Task, i: nat)
    requires Inv(w) && Enabled(w, MakeReady(t, i))
    ensures Inv(Apply(w, MakeReady(t, i))) && After(w.h, Apply(w, MakeReady(t, i)).h)
  {
    var wait := w.waits[t];
    var ready := wait.(arms := wait.arms[i := Other(true)]);
    var h' := Awake(w.h, t);
    StillDelivered(w, t, i);
    InvWait(w, t);
    hide Ground, After, Polling, Inv, SomeDelivered, WaitOk;
    InvGround(w, t);
    InvPolling(w, t);
    AwakeGround(w.h, w.waits, t);
    MakeReadyPolling(w.h, t, wait, i);
    Together(h', w.waits, t, ready);
  }

  lemma StillDelivered(w: World, t: Task, i: nat)
    requires Inv(w) && t in w.waits && i < |w.waits[t].arms| && w.waits[t].arms[i].Other?
    ensures var wait := w.waits[t];
      Claimed(Awake(w.h, t), wait.mark) ==> SomeDelivered(Awake(w.h, t), wait.arms[i := Other(true)])
  {
    hide Structure, Live, Ledger, ArmsFine;
    var wait := w.waits[t];
    assert WaitOk(w.h, t, wait);
    if Claimed(w.h, wait.mark) {
      var d :| 0 <= d < |wait.arms| && Delivered(w.h, wait.arms[d]);
      assert Delivered(Awake(w.h, t), wait.arms[i := Other(true)][d]);
    }
  }

  lemma InvWait(w: World, t: Task)
    requires Inv(w) && t in w.waits
    ensures Shape(w.waits[t])
  {
    assert WaitOk(w.h, t, w.waits[t]);
  }

  lemma LiveButOne(h: Heap, h': Heap, waits: map<Task, Wait>, one: Owner)
    requires Live(h, waits) && Respects(h, h', iset{one}) && Released(h', one)
    ensures Live(h', waits)
  {
  }

  lemma AllWaits(h: Heap, waits: map<Task, Wait>, t: Task)
    requires Others(h, waits, t) && t !in waits
    ensures forall u :: u in waits ==> WaitOk(h, u, waits[u])
  {
  }

  /** A send that does not wait, by a task that waits for nothing. */
  lemma SendNowInv(w: World, h0: Heap, h': Heap, t: Task, item: Item)
    requires Inv(w) && t !in w.waits && Grows(w.h, h0) && h0.chans == w.h.chans
    requires item.serial < |h0.sends| && h0.sends[item.serial] == InFlight(Owner(t, 0)) && item.origin.None?
    requires Structure(h') && After(h0, h') && Balanced(h') && Respects(h0, h', iset{Owner(t, 0)})
    requires h'.marks == h0.marks && h'.accepted == h0.accepted + multiset{item}
    requires h'.sends == h0.sends[item.serial := Accepted]
    requires Released(h', Owner(t, 0))
    ensures Inv(World(h', w.waits)) && After(w.h, h')
  {
    InvGround(w, t);
    hide Structure, Others, Live, After, Respects, ClaimSource, Balance, Accepts, Grows;
    GrowsGround(w.h, h0, w.waits, t);
    AfterTrans(w.h, h0, h');
    SameMarksClaims(h0, h');
    AcceptKeeps(h0, h', item, None);
    OthersStep(h0, h', w.waits, t, iset{Owner(t, 0)}, None);
    LiveButOne(h0, h', w.waits, Owner(t, 0));
    AllWaits(h', w.waits, t);
  }

  lemma TrySendInv(w: World, t: Task, c: nat, v: Value)
    requires Inv(w) && Enabled(w, DoTrySend(t, c, v))
    ensures Inv(Apply(w, DoTrySend(t, c, v))) && After(w.h, Apply(w, DoTrySend(t, c, v)).h)
  {
    var core := w.h.chans[c];
    var item := Item(v, |w.h.sends|, None);
    var accepting := w.h.(sends := w.h.sends + [InFlight(Owner(t, 0))]);
    var refusing := w.h.(sends := w.h.sends + [Refused]);
    assert Grows(w.h, accepting) && Grows(w.h, refusing);
    IdleReleased(w.h, w.waits, t);
    assert Released(w.h, Owner(t, 0));
    var k := FindWaiter(w.h, core.waiters, None);
    if !core.closed && core.cap == 0 && k.Some? {
      FillInv(w, accepting, t, core.waiters[k.value], c, item);
    } else if !core.closed && core.cap > 0 && |core.buf| < core.cap {
      PushInv(w, accepting, t, c, item);
    } else {
      RefusedInv(w, refusing, t);
    }
  }

  lemma RefusedInv(w: World, h': Heap, t: Task)
    requires Inv(w) && Grows(w.h, h') && h'.chans == w.h.chans && t !in w.waits
    ensures Inv(World(h', w.waits)) && After(w.h, h')
  {
    InvGround(w, t);
    hide Structure, Others, Live, After, Respects, Ledger, Grows;
    GrowsGround(w.h, h', w.waits, t);
    AllWaits(h', w.waits, t);
  }

  lemma FillRespects(h: Heap, id: nat, item: Item, me: Owner)
    requires Structure(h) && id < |h.waiters| && Queued(h, id)
    requires item.serial < |h.sends| && h.sends[item.serial] == InFlight(me)
    ensures Respects(h, Fill(h, id, item), iset{me})
  {
    forall arm, own, mark, q | own !in iset{me} && Fine(h, arm, own, mark, q)
      ensures Fine(Fill(h, id, item), arm, own, mark, q)
    {
      FillFine(h, id, item, me, arm, own, mark, q);
    }
  }

  lemma FillInv(w: World, h0: Heap, t: Task, id: nat, c: nat, item: Item)
    requires Inv(w) && t !in w.waits && Grows(w.h, h0) && h0.chans == w.h.chans
    requires item == Item(item.value, |w.h.sends|, None) && h0.sends == w.h.sends + [InFlight(Owner(t, 0))]
    requires Released(w.h, Owner(t, 0)) && c < |w.h.chans| && id in w.h.chans[c].waiters
    requires Fillable(w.h, id, None) && !w.h.chans[c].closed
    ensures Inv(World(Fill(h0, id, item), w.waits)) && After(w.h, Fill(h0, id, item))
  {
    var me := Owner(t, 0);
    GrowsStructure(w.h, h0);
    var h' := Fill(h0, id, item);
    assert ChanOk(h0, c) && Queued(h0, id);
    FillRespects(h0, id, item, me);
    FillStructure(h0, id, item, me);
    FillAfter(h0, id, item);
    GrowsBalanced(w.h, h0);
    forall x: Item ensures Balance(h', x, 0) { FillBalance(h0, id, item, x); }
    assert Released(h', me);
    SendNowInv(w, h0, h', t, item);
  }

  lemma PushInv(w: World, h0: Heap, t: Task, c: nat, item: Item)
    requires Inv(w) && t !in w.waits && Grows(w.h, h0) && h0.chans == w.h.chans
    requires item == Item(item.value, |w.h.sends|, None) && h0.sends == w.h.sends + [InFlight(Owner(t, 0))]
    requires Released(w.h, Owner(t, 0)) && c < |w.h.chans|
    requires !w.h.chans[c].closed && |w.h.chans[c].buf| < w.h.chans[c].cap
    ensures Inv(World(PushBack(h0, c, item), w.waits)) && After(w.h, PushBack(h0, c, item))
  {
    var me := Owner(t, 0);
    GrowsStructure(w.h, h0);
    var h' := PushBack(h0, c, item);
    forall arm, own, mark, q | own !in iset{me} && Fine(h0, arm, own, mark, q) ensures Fine(h', arm, own, mark, q) {
      PushBackFine(h0, c, item, me, arm, own, mark, q);
    }
    assert Respects(h0, h', iset{me});
    PushBackStructure(h0, c, item, me);
    PushBackAfter(h0, c, item);
    GrowsBalanced(w.h, h0);
    forall x: Item ensures Balance(h', x, 0) { PushBackBalance(h0, c, item, x); }
    assert Released(h', me);
    SendNowInv(w, h0, h', t, item);
  }

  // ---- runs ---------------------------------------------------------------------

  lemma InitInv()
    ensures Inv(Init())
  {
    forall x: Item ensures Balance(Init().h, x, 0) {}
  }

  /** Every operation keeps the invariant, and undoes nothing that is final. */
  lemma ApplyInv(w: World, op: Op)
    requires Inv(w) && Enabled(w, op)
    ensures Inv(Apply(w, op)) && After(w.h, Apply(w, op).h)
  {
    match op
    case NewChan(cap) => NewChanInv(w, cap);
    case StartPlain(t, c) => StartInv(w, t, [c], 0, false);
    case StartSelect(t, cases, start) => StartInv(w, t, cases, start, true);
    case CheckNow(t, cases, start) => CheckNowInv(w, t, cases, start);
    case Poll(t) => PollInv(w, t);
    case Cancel(t) => CancelInv(w, t);
    case Drop(t) => CancelInv(w, t);
    case MakeReady(t, i) => MakeReadyInv(w, t, i);
    case DoTrySend(t, c, v) => TrySendInv(w, t, c, v);
    case DoTryRecv(c) => TryRecvInv(w, c);
    case DoClose(c) => CloseInv(w, c);
    case PutBack(c, item) => PutBackInv(w, c, item);
  }
}
