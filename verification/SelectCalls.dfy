/** What the calls that do not wait answer, told from the channels as they are before the call. */
module SelectCalls {
  import opened Basics
  import opened ChanSpec
  import opened ChanInv
  import opened SelectSpec
  import opened SelectInv
  import opened SelectTheorems
  import opened SelectResults
  import opened SelectOrder
  import opened SelectReady

  // ---- what is there on a channel ---------------------------------------------------------

  /** An offer on `c` that a new receive may take. */
  ghost predicate Offered(h: Heap, c: nat, o: nat) {
    o < |h.offers| && h.offers[o].chan == c && h.offers[o].state == Open && !Claimed(h, h.offers[o].select)
  }

  /** A waiting receive on `c` that a new send may serve. */
  ghost predicate Waits(h: Heap, c: nat, id: nat)
    requires c < |h.chans|
  {
    && id in h.chans[c].waiters && id < |h.waiters|
    && h.waiters[id].slot.None? && !Claimed(h, h.waiters[id].select)
  }

  /** A value is there for a new receive. */
  ghost predicate HasValue(h: Heap, c: nat)
    requires c < |h.chans|
  {
    h.chans[c].buf != [] || (h.chans[c].cap == 0 && exists o: nat :: Offered(h, c, o))
  }

  /** A new send would be accepted at once, were the channel open. */
  ghost predicate HasRoom(h: Heap, c: nat)
    requires c < |h.chans|
  {
    if h.chans[c].cap > 0 then |h.chans[c].buf| < h.chans[c].cap else exists id: nat :: Waits(h, c, id)
  }

  /** The value that a new receive gets: the front of the buffer, or that of the oldest offer. */
  ghost predicate IsNext(h: Heap, c: nat, item: Item)
    requires c < |h.chans|
  {
    if h.chans[c].buf != [] then item == h.chans[c].buf[0]
    else h.chans[c].cap == 0 && exists o: nat :: OldestOffer(h, c, o) && item == h.offers[o].item
  }

  ghost predicate OldestOffer(h: Heap, c: nat, o: nat) {
    Offered(h, c, o) && forall o': nat :: Offered(h, c, o') ==> o <= o'
  }

  ghost predicate OldestWaiter(h: Heap, c: nat, id: nat)
    requires c < |h.chans|
  {
    Waits(h, c, id) && forall id': nat :: Waits(h, c, id') ==> id <= id'
  }

  /** What the case finds before the check. */
  ghost predicate CaseGoes(h: Heap, c: Case)
    requires CaseOk(h, c)
  {
    match c
    case RecvCase(d) => h.chans[d].closed || HasValue(h, d)
    case SendCase(d, _) => h.chans[d].closed || HasRoom(h, d)
    case OtherCase(ready) => ready
  }

  /** ... and what it should report. */
  ghost predicate CaseTells(h: Heap, c: Case, out: Out)
    requires CaseOk(h, c)
  {
    match c
    case RecvCase(d) =>
      (out.Received? && IsNext(h, d, out.item)) || (out.RecvClosed? && h.chans[d].closed && !HasValue(h, d))
    case SendCase(d, _) => out == if h.chans[d].closed then SendClosed else Sent
    case OtherCase(_) => out.Fired?
  }

  /** `mark` is of no select that has offers or waiters. */
  ghost predicate Unused(h: Heap, mark: Option<nat>) {
    mark.Some? ==> mark.value >= |h.marks|
  }

  /** Without records of the select, eligible offers are those offered, and fillable waiters those that wait. */
  lemma NewPairs(h: Heap, h1: Heap, c: nat, mark: Option<nat>)
    requires Structure(h) && c < |h.chans| && Unused(h, mark)
    requires h1.chans == h.chans && h1.offers == h.offers && h1.waiters == h.waiters
    requires h1.marks == h.marks || exists t :: h1.marks == h.marks + [MarkRec(false, t)]
    ensures forall o :: o in h.chans[c].offers ==> (Eligible(h1, o, mark) <==> Offered(h, c, o))
    ensures forall o: nat :: Offered(h, c, o) ==> o in h.chans[c].offers
    ensures forall id :: id in h.chans[c].waiters ==> (Fillable(h1, id, mark) <==> Waits(h, c, id))
  {
    assert ChanOk(h, c);
    forall o | o in h.chans[c].offers ensures Eligible(h1, o, mark) <==> Offered(h, c, o) {
      assert OfferOk(h, o);
    }
    forall o: nat | Offered(h, c, o) ensures o in h.chans[c].offers { assert OfferOk(h, o); }
    forall id | id in h.chans[c].waiters ensures Fillable(h1, id, mark) <==> Waits(h, c, id) {
      assert WaiterOk(h, id);
    }
  }

  /** The first of the queue is the oldest. */
  lemma FirstIsOldest(h: Heap, h1: Heap, c: nat, mark: Option<nat>, k: nat)
    requires Structure(h) && QueuesOk(h) && c < |h.chans| && Unused(h, mark)
    requires h1.chans == h.chans && h1.offers == h.offers && h1.waiters == h.waiters
    requires h1.marks == h.marks || exists t :: h1.marks == h.marks + [MarkRec(false, t)]
    requires FirstOffer(h1, h.chans[c].offers, k, mark)
    ensures OldestOffer(h, c, h.chans[c].offers[k])
  {
    NewPairs(h, h1, c, mark);
    var ids := h.chans[c].offers;
    assert ids[k] in ids;
    assert Ordered(ids, |h.offers|);
    forall o: nat | Offered(h, c, o) ensures ids[k] <= o {
      var j :| 0 <= j < |ids| && ids[j] == o;
      assert Eligible(h1, ids[j], mark);
    }
  }

  // ---- a select with a default ------------------------------------------------------------

  /** Before the check, its cases can go exactly when something is there for them. */
  lemma NewCaseGoes(w: World, t: Task, cases: seq<Case>, start: nat, i: nat)
    requires Reachable(w) && Enabled(w, CheckNow(t, cases, start)) && i < |cases|
    ensures var (h1, wait) := CheckStart(w, t, cases, start);
      && CaseOk(w.h, cases[i]) && ArmRefs(h1, wait.arms[i])
      && (CanGo(h1, wait.arms[i], wait.mark) <==> CaseGoes(w.h, cases[i]))
  {
    ReachableInv(w);
    assert cases[i] in cases;
    var (h1, wait) := CheckStart(w, t, cases, start);
    if !cases[i].OtherCase? { NewPairs(w.h, h1, cases[i].chan, wait.mark); }
    hide Inv, Reachable, Eligible, Fillable, Offered;
  }

  lemma NewCaseTells(w: World, t: Task, cases: seq<Case>, start: nat, i: nat, out: Out)
    requires Reachable(w) && Enabled(w, CheckNow(t, cases, start)) && i < |cases|
    requires var (h1, wait) := CheckStart(w, t, cases, start);
      ArmRefs(h1, wait.arms[i]) && Tells(h1, wait.arms[i], wait.mark, out)
    ensures CaseOk(w.h, cases[i]) && CaseTells(w.h, cases[i], out)
  {
    ReachableInv(w);
    InOrderOfArrival(w);
    assert cases[i] in cases;
    var (h1, wait) := CheckStart(w, t, cases, start);
    if cases[i].RecvCase? {
      var c := cases[i].chan;
      NewPairs(w.h, h1, c, wait.mark);
      if out.Received? && w.h.chans[c].buf == [] {
        var k: nat :| FirstOffer(h1, w.h.chans[c].offers, k, wait.mark)
          && out.item == h1.offers[w.h.chans[c].offers[k]].item;
        FirstIsOldest(w.h, h1, c, wait.mark, k);
      }
    }
    hide Inv, Reachable, Eligible, Fillable, Offered, QueuesOk, FirstOffer;
  }

  /** The outcome of a check: `Waiting` means that the default runs. */
  function CheckOut(w: World, t: Task, cases: seq<Case>, start: nat): Outcome {
    PollNow(CheckStart(w, t, cases, start).0, t, CheckStart(w, t, cases, start).1).1
  }

  /**
   In every reachable state, the default of a select runs if and only if no
   case could go before the call; otherwise the first that could, counted from
   the start and around, is chosen and reports what was there for it.
   */
  lemma CheckExactly(w: World, t: Task, cases: seq<Case>, start: nat)
    requires Reachable(w) && Enabled(w, CheckNow(t, cases, start))
    ensures var out := CheckOut(w, t, cases, start);
      && (out.Waiting? <==> forall c :: c in cases ==> !CaseGoes(w.h, c))
      && (out.Chosen? ==>
            && out.case_ < |cases| && CaseGoes(w.h, cases[out.case_])
            && CaseTells(w.h, cases[out.case_], out.out)
            && forall x :: 0 <= x < |cases| && CaseGoes(w.h, cases[x]) ==>
                 Distance(start, out.case_, |cases|) <= Distance(start, x, |cases|))
  {
    var (h1, wait) := CheckStart(w, t, cases, start);
    forall i: nat | i < |cases|
      ensures CaseOk(w.h, cases[i]) && ArmRefs(h1, wait.arms[i])
      ensures CanGo(h1, wait.arms[i], wait.mark) <==> CaseGoes(w.h, cases[i])
    {
      NewCaseGoes(w, t, cases, start, i);
    }
    assert AllRefs(h1, wait.arms);
    NewUndelivered(h1, cases, |w.h.sends|, wait.mark);
    hide Reachable, CanGo, CaseGoes, Tells, CaseTells, PollFrom, WithdrawFrom, FirstDelivered, BuildArms;
    PollFromFirst(h1, t, wait, 0, Noop);
    var out := PollFrom(h1, t, wait, 0, Noop).2;
    assert CheckOut(w, t, cases, start) == out;
    ChosenFirst(h1, wait, out);
    if out.Waiting? {
      forall c | c in cases ensures !CaseGoes(w.h, c) {
        var i :| 0 <= i < |cases| && cases[i] == c;
        assert !CanGo(h1, wait.arms[i], wait.mark);
      }
    } else {
      NewCaseTells(w, t, cases, start, out.case_, out.out);
      assert cases[out.case_] in cases;
    }
  }

  // ---- try_send ----------------------------------------------------------------------------

  /** The item of the send that `try_send` starts. */
  function NextItem(h: Heap, v: Value): Item {
    Item(v, |h.sends|, None)
  }

  /** Where an accepted value went: the back of the buffer, or the slot of the oldest waiting receive. */
  ghost predicate Placed(h: Heap, h': Heap, c: nat, item: Item)
    requires c < |h.chans|
  {
    if h.chans[c].cap > 0 then
      && |h'.chans| == |h.chans| && h'.chans == h.chans[c := h'.chans[c]] && h'.waiters == h.waiters
      && h'.chans[c].buf == h.chans[c].buf + [item]
    else
      && h'.chans == h.chans
      && exists id: nat :: OldestWaiter(h, c, id)
           && h'.waiters == h.waiters[id := h.waiters[id].(slot := Some(item))]
  }

  lemma FirstWaiterIsOldest(h: Heap, c: nat, k: nat)
    requires Structure(h) && QueuesOk(h) && c < |h.chans|
    requires k < |h.chans[c].waiters| && Fillable(h, h.chans[c].waiters[k], None)
    requires forall j :: 0 <= j < k ==> !Fillable(h, h.chans[c].waiters[j], None)
    ensures OldestWaiter(h, c, h.chans[c].waiters[k])
  {
    NewPairs(h, h, c, None);
    var ids := h.chans[c].waiters;
    assert ids[k] in ids;
    assert Ordered(ids, |h.waiters|);
    forall id: nat | Waits(h, c, id) ensures ids[k] <= id {
      var j :| 0 <= j < |ids| && ids[j] == id;
      assert Fillable(h, ids[j], None);
    }
  }

  /** `try_send` sees the close; else it sends if there is room, and reports what it did. */
  lemma TrySendAnswers(h: Heap, t: Task, c: nat, v: Value)
    requires Structure(h) && QueuesOk(h) && c < |h.chans|
    ensures var (h', out) := TrySend(h, t, c, v);
      && out == (if h.chans[c].closed then Closed else if HasRoom(h, c) then Done else Full)
      && (if out.Done? then Placed(h, h', c, NextItem(h, v)) && NextItem(h, v) in h'.accepted
          else h' == h.(sends := h.sends + [Refused]))
  {
    var core := h.chans[c];
    if core.cap == 0 {
      NewPairs(h, h, c, None);
      var accepting := h.(sends := h.sends + [InFlight(Owner(t, 0))]);
      var k := FindWaiter(h, core.waiters, None);
      if k.Some? {
        assert core.waiters[k.value] in core.waiters;
        FirstWaiterIsOldest(h, c, k.value);
      }
      hide Structure, QueuesOk, OldestWaiter, Fillable, TasksOf;
    }
  }

  /**
   `try_send` tells the truth: it reports a close exactly for a closed channel,
   success exactly when the channel is open and has room, and its value is
   accepted then, at the back of the buffer or with the oldest waiting receive.
   Over every further run the value is once with a receiver or in a channel
   after a success, and nowhere otherwise.
   */
  lemma TrySendIsTruthful(w: World, t: Task, c: nat, v: Value, ops: seq<Op>, w': World)
    requires Reachable(w) && Enabled(w, DoTrySend(t, c, v)) && RunsTo(Apply(w, DoTrySend(t, c, v)), ops, w')
    ensures var item, out, h' := NextItem(w.h, v), TrySend(w.h, t, c, v).1, Apply(w, DoTrySend(t, c, v)).h;
      && (out.Closed? <==> w.h.chans[c].closed)
      && (out.Done? <==> !w.h.chans[c].closed && HasRoom(w.h, c))
      && (out.Full? <==> !w.h.chans[c].closed && !HasRoom(w.h, c))
      && (out.Done? <==> item in h'.accepted)
      && (if out.Done? then Placed(w.h, h', c, item) else h' == w.h.(sends := w.h.sends + [Refused]))
      && Settled(w'.h, item, out.Done?)
  {
    ReachableInv(w);
    InOrderOfArrival(w);
    TrySendAnswers(w.h, t, c, v);
    OneStep(w, DoTrySend(t, c, v));
    var w1 := Apply(w, DoTrySend(t, c, v));
    hide Reachable, Inv, Apply, HasRoom, Placed, TrySend, Structure, QueuesOk, Settled;
    var item, out := NextItem(w.h, v), TrySend(w.h, t, c, v).1;
    StaysSettled(w1, ops, w', item, out.Done?);
    if !out.Done? { RefusedNowhere(w1, item); }
  }

  lemma RefusedNowhere(w: World, item: Item)
    requires Reachable(w) && item.serial < |w.h.sends| && w.h.sends[item.serial] == Refused
    ensures item !in w.h.accepted
  {
    ReachableInv(w);
    RunsNowhere(w);
    StaysSettled(w, [], w, item, false);
    ValuesConserved(w, item);
  }

  lemma RunsNowhere(w: World)
    ensures RunsTo(w, [], w)
  {
  }

  // ---- try_recv and put-back ----------------------------------------------------------------

  /** `try_recv` takes the next value if there is one; else it reports whether the channel is closed. */
  lemma TryRecvAnswers(w: World, c: nat)
    requires Reachable(w) && Enabled(w, DoTryRecv(c))
    ensures var (h', out) := TryRecv(w.h, c);
      && (out.Got? <==> HasValue(w.h, c))
      && (out.Got? ==> IsNext(w.h, c, out.item) && h'.handed == w.h.handed + multiset{out.item})
      && (out.Got? && w.h.chans[c].buf != [] ==> h'.chans[c].buf == w.h.chans[c].buf[1..])
      && (out.Got? && w.h.chans[c].buf == [] ==>
            exists o: nat :: OldestOffer(w.h, c, o) && h'.offers[o := w.h.offers[o]] == w.h.offers
              && h'.offers[o].state == Taken && h'.chans[c].buf == [])
      && (out.Closed? <==> w.h.chans[c].closed && !HasValue(w.h, c))
      && (out.Empty? <==> !w.h.chans[c].closed && !HasValue(w.h, c))
      && (!out.Got? ==> h' == w.h)
  {
    ReachableInv(w);
    InOrderOfArrival(w);
    var core := w.h.chans[c];
    NewPairs(w.h, w.h, c, None);
    var k := FindOffer(w.h, core.offers, None);
    if k.Some? && core.cap == 0 && core.buf == [] {
      assert FirstOffer(w.h, core.offers, k.value, None);
      FirstIsOldest(w.h, w.h, c, None, k.value);
      TakenOne(w.h, c, core.offers[k.value]);
    }
    hide Inv, Reachable, Structure, QueuesOk, OldestOffer, TakeOffer, TasksOf, FirstOffer;
  }

  lemma TakenOne(h: Heap, c: nat, o: nat)
    requires c < |h.chans| && o < |h.offers| && o in h.chans[c].offers
    ensures var h' := TakeOffer(h, c, o);
      && |h'.offers| == |h.offers| && h'.offers[o := h.offers[o]] == h.offers && h'.offers[o].state == Taken
      && |h'.chans| == |h.chans| && h'.chans[c].buf == h.chans[c].buf
      && h'.handed == h.handed + multiset{h.offers[o].item}
  {
    hide TasksOf, Without;
  }

  /** A value put back is the next one received from its channel, which is then as before the put-back. */
  lemma PutBackIsNext(w: World, c: nat, item: Item)
    requires Reachable(w) && Enabled(w, PutBack(c, item))
    ensures var w1 := Apply(w, PutBack(c, item));
      && Enabled(w1, DoTryRecv(c)) && HasValue(w1.h, c)
      && (forall x :: IsNext(w1.h, c, x) <==> x == item)
      && var (h2, out) := TryRecv(w1.h, c);
         out == Got(item) && |h2.chans| == |w.h.chans| && h2.chans[c].buf == w.h.chans[c].buf && h2.handed == w.h.handed
  {
    var w1 := Apply(w, PutBack(c, item));
    PutBackFront(w.h, c, item);
    PopsFront(w1.h, c);
    assert w.h.handed - multiset{item} + multiset{item} == w.h.handed;
  }

  lemma PutBackFront(h: Heap, c: nat, item: Item)
    requires c < |h.chans|
    ensures var h' := Unrecv(h, c, item);
      && |h'.chans| == |h.chans| && h'.chans[c].buf == [item] + h.chans[c].buf && h'.handed == h.handed - multiset{item}
      && forall d :: 0 <= d < |h.chans| && d != c ==> h'.chans[d] == h.chans[d]
  {
    hide TasksOf, WaiterWakers;
  }

  lemma PopsFront(h: Heap, c: nat)
    requires c < |h.chans| && h.chans[c].buf != []
    ensures var (h', out) := TryRecv(h, c);
      && out == Got(h.chans[c].buf[0]) && |h'.chans| == |h.chans| && h'.chans[c].buf == h.chans[c].buf[1..]
      && h'.handed == h.handed + multiset{h.chans[c].buf[0]}
  {
    hide TasksOf;
  }
}
