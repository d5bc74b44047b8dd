/** What a check without waiting, a finished wait and a whole run leave behind. */
module SelectResults {
  import opened Basics
  import opened ChanSpec
  import opened ChanInv
  import opened ChanLedger
  import opened ChanProgress
  import opened SelectSpec
  import opened SelectInv
  import opened SelectPoll
  import opened SelectRun
  import opened SelectTheorems
  import opened SelectOutcomes

  // ---- a check without waiting --------------------------------------------------------

  /** The sends of a check that starts when `base` sends exist, once it is over. */
  ghost predicate CheckEnded(h: Heap, cases: seq<Case>, base: nat, out: Outcome) {
    forall i: nat :: i < |cases| && cases[i].SendCase? ==>
      && base + i < |h.sends|
      && h.sends[base + i] == if out.Chosen? && out.case_ == i && out.out.Sent? then Accepted else Refused
  }

  lemma CheckSendsEnded(h: Heap, cases: seq<Case>, base: nat, mark: Option<nat>, i: nat, out: Out)
    requires SendsEnded(h, BuildArms(cases, base, mark, true), i, out)
    ensures CheckEnded(h, cases, base, Chosen(i, out))
  {
    var arms := BuildArms(cases, base, mark, true);
    forall j: nat | j < |cases| && cases[j].SendCase?
      ensures base + j < |h.sends| && h.sends[base + j] == if j == i && out.Sent? then Accepted else Refused
    {
      assert arms[j].Send?;
    }
  }

  /** With no case ready, every send of the check is refused. */
  lemma DefaultEnds(h: Heap, t: Task, cases: seq<Case>, base: nat, wait: Wait)
    requires Structure(h) && Polling(h, t, wait, All(|wait.arms|), false)
    requires wait.mark.Some? && !Claimed(h, wait.mark)
    requires SameSends(BuildArms(cases, base, wait.mark, true), wait.arms)
    ensures CheckEnded(WithdrawFrom(Claim(h, wait.mark), wait.arms, 0, None), cases, base, Waiting)
  {
    hide Structure, Polling, Withdrawing, After, Ends;
    var built := BuildArms(cases, base, wait.mark, true);
    var hc := Claim(h, wait.mark);
    NoneDelivered(h, t, wait);
    ReadyToWithdraw(h, t, wait, All(|wait.arms|), false, None);
    ClaimStructure(h, wait.mark);
    ClaimCases(h, t, wait.arms, wait.mark, None);
    UnwithdrawnEnds(hc, t, wait.arms, wait.mark);
    WithdrawFromEnds(hc, hc, t, wait.arms, wait.mark, 0, None);
    var h' := WithdrawFrom(hc, wait.arms, 0, None);
    forall j: nat | j < |cases| && cases[j].SendCase?
      ensures base + j < |h'.sends| && h'.sends[base + j] == Refused
    {
      assert built[j].Send?;
      EndedSend(hc, h', wait.arms, j);
    }
  }

  lemma EndedSend(h: Heap, h': Heap, arms: seq<Arm>, j: nat)
    requires Ends(h, h', arms, |arms|, None) && j < |arms| && arms[j].Send? && !Delivered(h, arms[j])
    ensures arms[j].item.serial < |h'.sends| && h'.sends[arms[j].item.serial] == Refused
  {
    assert EndsOne(h, h', arms[j], j < |arms|);
  }

  lemma NoneDelivered(h: Heap, t: Task, wait: Wait)
    requires Structure(h) && Polling(h, t, wait, All(|wait.arms|), false)
    requires wait.mark.Some? && !Claimed(h, wait.mark)
    ensures forall j: nat :: j < |wait.arms| ==> !Delivered(Claim(h, wait.mark), wait.arms[j])
  {
    forall j: nat | j < |wait.arms| ensures !Delivered(Claim(h, wait.mark), wait.arms[j]) {
      assert Fine(h, wait.arms[j], Owner(t, j), wait.mark, false);
      UnclaimedUndelivered(h, wait.arms[j], Owner(t, j), wait.mark);
    }
  }

  lemma UnwithdrawnEnds(h: Heap, t: Task, arms: seq<Arm>, mark: Option<nat>)
    requires Withdrawing(h, t, arms, mark, 0, None)
    ensures Ends(h, h, arms, 0, None)
  {
    forall i: nat | i < |arms| && arms[i].Send? && None != Some(i) ensures EndsOne(h, h, arms[i], i < 0) {
      assert DoneOrOk(h, arms[i], Owner(t, i), mark, i < 0 || None == Some(i));
    }
  }

  lemma NewUndelivered(h: Heap, cases: seq<Case>, base: nat, mark: Option<nat>)
    ensures FirstDelivered(h, BuildArms(cases, base, mark, true)).None?
  {
  }

  /** The heap and the wait in which a check of `t` starts. */
  function CheckStart(w: World, t: Task, cases: seq<Case>, start: nat): (Heap, Wait) {
    NewWait(AddMark(w.h, t), t, cases, start, Some(|w.h.marks|), true)
  }

  lemma CheckReady(w: World, t: Task, cases: seq<Case>, start: nat)
    requires Reachable(w) && Enabled(w, CheckNow(t, cases, start))
    ensures var (h1, wait) := CheckStart(w, t, cases, start);
      && Ground(h1, w.waits[t := wait], t, None) && Polling(h1, t, wait, {}, false)
      && !Claimed(h1, wait.mark) && MarkOf(h1, t, wait.mark)
  {
    ReachableInv(w);
    var (h1, wait) := CheckStart(w, t, cases, start);
    IdleReleased(w.h, w.waits, t);
    hide Structure, Others, Live, Ledger, After, Polling;
    InvGround(w, t);
    StartedGrows(w.h, t, |cases|, true);
    assert h1 == Started(w.h, t, |cases|, true);
    GrowsGround(w.h, h1, w.waits, t);
    NewCases(w.h, t, cases, start, true, true);
    JoinGround(h1, w.waits, t, wait);
  }

  /**
   A check without waiting (a select with a default) chooses at most one
   case.  Each of its sends is over when it returns: accepted if it was the
   case chosen and reports sent, refused otherwise, and all of them refused
   when the default runs.  It moves no value but the one it reports, and
   receives no value of its own.
   */
  lemma CheckEnds(w: World, t: Task, cases: seq<Case>, start: nat)
    requires Reachable(w) && Enabled(w, CheckNow(t, cases, start))
    ensures var (h1, wait) := CheckStart(w, t, cases, start);
      var (h', out) := PollNow(h1, t, wait);
      && h' == Apply(w, CheckNow(t, cases, start)).h
      && CheckEnded(h', cases, |w.h.sends|, out)
      && Books(w.h, h', wait.arms, out)
      && (out.Chosen? && out.out.Received? ==> out.out.item.origin != wait.mark)
  {
    var (h1, wait) := CheckStart(w, t, cases, start);
    var waits := w.waits[t := wait];
    CheckReady(w, t, cases, start);
    NewUndelivered(h1, cases, |w.h.sends|, wait.mark);
    hide Structure, Others, Live, Ledger, After, Polling, Books, SendsEnded, CheckEnded, PollFrom, FirstDelivered;
    PollFromOutcome(h1, t, wait, 0, Noop, false);
    PollFromOrigin(h1, waits, t, wait, 0, Noop, false);
    PollWaitInv(h1, waits, t, wait, Noop, false);
    var (h2, wait2, out) := PollFrom(h1, t, wait, 0, Noop);
    assert PollWait(h1, t, wait, Noop) == (h2, wait2, out);
    if out.Waiting? {
      DefaultEnds(h2, t, cases, |w.h.sends|, wait2);
      DefaultBooks(w.h, h1, h2, wait, wait2);
    } else {
      CheckSendsEnded(h2, cases, |w.h.sends|, wait.mark, out.case_, out.out);
      SameArms(wait.arms);
      SameBooks(w.h, h1, h2, wait.arms, wait.arms, out);
    }
  }

  lemma SameArms(arms: seq<Arm>)
    ensures SameSends(arms, arms)
  {
  }

  lemma DefaultBooks(h: Heap, h1: Heap, h2: Heap, wait: Wait, wait2: Wait)
    requires Books(h1, h2, wait.arms, Waiting) && h1.accepted == h.accepted && h1.handed == h.handed
    ensures Books(h, WithdrawFrom(Claim(h2, wait.mark), wait2.arms, 0, None), wait.arms, Waiting)
  {
    WithdrawFromHands(Claim(h2, wait.mark), wait2.arms, 0, None);
  }

  // ---- a send tells the truth ------------------------------------------------------------

  lemma {:induction false} RunsOn(w: World, first: seq<Op>, w1: World, more: seq<Op>, w2: World)
    requires RunsTo(w, first, w1) && RunsTo(w1, more, w2)
    ensures RunsTo(w, first + more, w2)
    decreases |first|
  {
    hide Apply, Enabled;
    if first == [] {
      assert first + more == more;
    } else {
      RunsOn(Apply(w, first[0]), first[1..], w1, more, w2);
      assert (first + more)[1..] == first[1..] + more;
    }
  }

  lemma RunsReachable(w: World, ops: seq<Op>, w': World)
    requires Reachable(w) && RunsTo(w, ops, w')
    ensures Reachable(w')
  {
    var first :| RunsTo(Init(), first, w);
    RunsOn(Init(), first, w, ops, w');
  }

  lemma OneStep(w: World, op: Op)
    requires Reachable(w) && Enabled(w, op)
    ensures Reachable(Apply(w, op))
  {
    hide Apply, Enabled, Reachable;
    assert [op][1..] == [];
    assert RunsTo(Apply(w, op), [], Apply(w, op));
    assert RunsTo(w, [op], Apply(w, op));
    RunsReachable(w, [op], Apply(w, op));
  }

  /** Where the value `x` of an ended send is, now and for ever: once with a receiver or stored, or nowhere. */
  ghost predicate Settled(h: Heap, x: Item, sent: bool) {
    h.handed[x] + Stored(h, x) == if sent then 1 else 0
  }

  lemma StaysSettled(w: World, ops: seq<Op>, w': World, x: Item, sent: bool)
    requires Reachable(w) && RunsTo(w, ops, w')
    requires if sent then x in w.h.accepted else x.serial < |w.h.sends| && w.h.sends[x.serial] == Refused
    ensures Settled(w'.h, x, sent)
  {
    hide Reachable, Inv, Stored;
    if sent {
      ReachableInv(w);
      RunKeeps(w, ops, w');
      RunsReachable(w, ops, w');
      ValuesConserved(w', x);
    } else {
      RefusedForever(w, ops, w', x);
    }
  }

  /**
   A send tells the truth: when a poll ends its wait, its value is from then
   on exactly once with a receiver or in the channel if it reports sent, and
   never received by anyone if it does not.
   */
  lemma SendIsTruthful(w: World, t: Task, i: nat, ops: seq<Op>, w': World)
    requires Reachable(w) && t in w.waits && i < |w.waits[t].arms| && w.waits[t].arms[i].Send?
    requires PollWait(Asleep(w.h, t), t, w.waits[t], Wake(t)).2.Chosen?
    requires RunsTo(Apply(w, Poll(t)), ops, w')
    ensures var out := PollWait(Asleep(w.h, t), t, w.waits[t], Wake(t)).2;
      Settled(w'.h, w.waits[t].arms[i].item, out.case_ == i && out.out.Sent?)
  {
    var arms := w.waits[t].arms;
    PollEnds(w, t);
    OneStep(w, Poll(t));
    var (h', _, out) := PollWait(Asleep(w.h, t), t, w.waits[t], Wake(t));
    assert Apply(w, Poll(t)).h == h';
    hide PollWait, Reachable, Apply, Settled;
    StaysSettled(Apply(w, Poll(t)), ops, w', arms[i].item, out.case_ == i && out.out.Sent?);
  }

  /** The same for a wait that saw its cancel: only a delivered case reports sent. */
  lemma CancelledSendIsTruthful(w: World, t: Task, i: nat, ops: seq<Op>, w': World)
    requires Reachable(w) && t in w.waits && i < |w.waits[t].arms| && w.waits[t].arms[i].Send?
    requires RunsTo(Apply(w, Cancel(t)), ops, w')
    ensures Settled(w'.h, w.waits[t].arms[i].item, CancelWait(w.h, w.waits[t]).1 == Chosen(i, Sent))
  {
    var arms := w.waits[t].arms;
    CancelEnds(w, t);
    OneStep(w, Cancel(t));
    var (h', out) := CancelWait(w.h, w.waits[t]);
    assert Apply(w, Cancel(t)).h == h';
    if out == Chosen(i, Sent) { DeliveredAccepted(w, t, i); }
    hide CancelWait, Reachable, Apply, Settled;
    StaysSettled(Apply(w, Cancel(t)), ops, w', arms[i].item, out == Chosen(i, Sent));
  }

  lemma DeliveredAccepted(w: World, t: Task, i: nat)
    requires Reachable(w) && t in w.waits && CancelWait(w.h, w.waits[t]).1 == Chosen(i, Sent)
    ensures i < |w.waits[t].arms| && w.waits[t].arms[i].Send? && w.waits[t].arms[i].item in w.h.accepted
  {
    ReachableInv(w);
    var wait := w.waits[t];
    assert WaitOk(w.h, t, wait);
    assert Fine(w.h, wait.arms[i], Owner(t, i), wait.mark, i in All(|wait.arms|));
    assert OfferOk(w.h, wait.arms[i].offer.value);
  }

  // ---- atomic choice ------------------------------------------------------------------

  /** At most one offer of a select is ever taken, over all its channels. */
  lemma OneTaken(w: World, a: nat, b: nat)
    requires Reachable(w) && a < |w.h.offers| && b < |w.h.offers|
    requires w.h.offers[a].state == Taken && w.h.offers[b].state == Taken
    requires w.h.offers[a].select.Some? && w.h.offers[a].select == w.h.offers[b].select
    ensures a == b
  {
    ReachableInv(w);
    assert a < b ==> Apart(w.h.offers[a], w.h.offers[b]);
    assert b < a ==> Apart(w.h.offers[b], w.h.offers[a]);
  }

  /** The value that a poll moves, if any: the one it received or sent. */
  ghost predicate Moves(out: Outcome, arms: seq<Arm>, x: Item) {
    out.Chosen? && match out.out
      case Received(item) => x == item
      case Sent => out.case_ < |arms| && arms[out.case_].Send? && arms[out.case_].item == x
      case _ => false
  }

  lemma BooksStored(h: Heap, h': Heap, arms: seq<Arm>, out: Outcome, x: Item)
    requires Books(h, h', arms, out) && Balance(h, x, 0) && Balance(h', x, 0) && !Moves(out, arms, x)
    ensures Stored(h', x) == Stored(h, x) && h'.handed[x] == h.handed[x]
  {
    hide Stored;
  }

  /** Polling a wait leaves every other value where the channels hold it: cases not chosen move nothing. */
  lemma UnchosenMoveNothing(w: World, t: Task, x: Item)
    requires Reachable(w) && t in w.waits
    requires !Moves(PollWait(Asleep(w.h, t), t, w.waits[t], Wake(t)).2, w.waits[t].arms, x)
    ensures var h' := Apply(w, Poll(t)).h;
      Stored(h', x) == Stored(w.h, x) && h'.handed[x] == w.h.handed[x]
  {
    hide Reachable, Stored, PollWait, Books, Moves;
    ReachableInv(w);
    PollEnds(w, t);
    var (h', wait', out) := PollWait(Asleep(w.h, t), t, w.waits[t], Wake(t));
    PollInv(w, t);
    InvBalance(w, x);
    InvBalance(Apply(w, Poll(t)), x);
    BooksStored(w.h, h', w.waits[t].arms, out, x);
  }

  /** Cancelling or dropping a wait moves no value at all: a filled slot goes back into its channel. */
  lemma CancelMovesNothing(w: World, t: Task, x: Item)
    requires Reachable(w) && t in w.waits
    ensures Stored(Apply(w, Cancel(t)).h, x) == Stored(w.h, x)
    ensures Stored(Apply(w, Drop(t)).h, x) == Stored(w.h, x)
  {
    hide Reachable, Stored, CancelWait, WithdrawFrom, Inv, SendsEnded, EndsOne, AllRefused, After;
    ReachableInv(w);
    CancelEnds(w, t);
    WithdrawAllEnds(w, t);
    CancelInv(w, t);
    InvBalance(w, x);
    InvBalance(Apply(w, Cancel(t)), x);
    InvBalance(Apply(w, Drop(t)), x);
  }

  lemma InvBalance(w: World, x: Item)
    requires Inv(w)
    ensures Balance(w.h, x, 0)
  {
    hide Structure, WaitOk, Live, Accepts, Balance;
  }

  /** A task that waits for nothing has no open offer and no queued waiter on any channel. */
  lemma NothingLeftBehind(w: World, t: Task)
    requires Reachable(w) && t !in w.waits
    ensures forall o :: 0 <= o < |w.h.offers| && w.h.offers[o].owner.task == t ==> w.h.offers[o].state != Open
    ensures forall id :: 0 <= id < |w.h.waiters| && w.h.waiters[id].owner.task == t ==> !Queued(w.h, id)
  {
    ReachableInv(w);
    forall o | 0 <= o < |w.h.offers| && w.h.offers[o].owner.task == t ensures w.h.offers[o].state != Open {
      assert Fine(w.h, Other(false), w.h.offers[o].owner, None, false);
    }
    forall id | 0 <= id < |w.h.waiters| && w.h.waiters[id].owner.task == t ensures !Queued(w.h, id) {
      assert Fine(w.h, Other(false), w.h.waiters[id].owner, None, false);
    }
  }

  // ---- a buffered channel is a bounded queue --------------------------------------------

  /**
   Without put-backs, what was received is a prefix of what was pushed and
   the rest is the buffer, within the capacity; each put-back may add one.
   */
  lemma BoundedQueue(w: World, c: nat)
    requires Reachable(w) && c < |w.h.chans|
    ensures var core := w.h.chans[c];
      && (core.putBacks == 0 ==> core.popped + core.buf == core.pushed && core.popped <= core.pushed)
      && |core.buf| <= core.cap + core.putBacks
  {
    var ops :| RunsTo(Init(), ops, w);
    InitInv();
    RunKeeps(Init(), ops, w);
    var core := w.h.chans[c];
    assert Fifo(FreshChan(core.cap), core);
    assert core.pushed[0..] == core.pushed;
  }

  /**
   A closed channel accepts nothing more: nothing is pushed, no offer is
   posted or taken, and no slot is filled.  Without put-backs it drains what
   it held in order.
   */
  lemma ClosedDrains(w: World, ops: seq<Op>, w': World, c: nat)
    requires Reachable(w) && RunsTo(w, ops, w') && c < |w.h.chans| && w.h.chans[c].closed
    ensures c < |w'.h.chans|
    ensures var a, b := w.h.chans[c], w'.h.chans[c];
      && b.closed && b.pushed == a.pushed
      && (b.putBacks == a.putBacks ==> b.popped + b.buf == a.popped + a.buf)
    ensures forall o :: 0 <= o < |w'.h.offers| && w'.h.offers[o].chan == c ==>
      o < |w.h.offers| && w'.h.offers[o].state == w.h.offers[o].state && w.h.offers[o].state != Open
    ensures forall id :: 0 <= id < |w'.h.waiters| && w'.h.waiters[id].chan == c ==>
      id < |w.h.waiters| && (w'.h.waiters[id].slot.None? || w'.h.waiters[id].slot == w.h.waiters[id].slot)
  {
    ReachableInv(w);
    RunKeeps(w, ops, w');
    hide Reachable, Inv, WaitOk;
    var a, b := w.h.chans[c], w'.h.chans[c];
    assert Fifo(a, b);
    assert b.pushed[|a.pushed|..] == [];
    ClosedOffers(w, w', c);
    forall id | 0 <= id < |w'.h.waiters| && w'.h.waiters[id].chan == c
      ensures id < |w.h.waiters| && (w'.h.waiters[id].slot.None? || w'.h.waiters[id].slot == w.h.waiters[id].slot)
    {
      assert id < |w.h.waiters| || OnOpen(w.h, w'.h.waiters[id].chan);
      assert WaiterAfter(w.h, w.h.waiters[id], w'.h.waiters[id]);
    }
  }

  lemma ClosedOffers(w: World, w': World, c: nat)
    requires Inv(w) && After(w.h, w'.h) && c < |w.h.chans| && w.h.chans[c].closed
    ensures forall o :: 0 <= o < |w'.h.offers| && w'.h.offers[o].chan == c ==>
      o < |w.h.offers| && w'.h.offers[o].state == w.h.offers[o].state && w.h.offers[o].state != Open
  {
    forall o | 0 <= o < |w'.h.offers| && w'.h.offers[o].chan == c
      ensures o < |w.h.offers| && w'.h.offers[o].state == w.h.offers[o].state && w.h.offers[o].state != Open
    {
      assert o < |w.h.offers| || OnOpen(w.h, w'.h.offers[o].chan);
      assert OfferAfter(w.h.offers[o], w'.h.offers[o]) && OfferOk(w.h, o) && ChanOk(w.h, c);
    }
  }
}
