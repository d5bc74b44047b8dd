/** Polling, resolving and withdrawing a whole wait keeps the invariant of everyone else. */
module SelectPoll {
  import opened Basics
  import opened ChanSpec
  import opened ChanInv
  import opened ChanArm
  import opened ChanLedger
  import opened ChanProgress
  import opened SelectSpec
  import opened SelectInv

  /** Everything but the wait of `t` is in order. */
  ghost predicate Ground(h: Heap, waits: map<Task, Wait>, t: Task, busy: Option<nat>) {
    Structure(h) && Others(h, waits, t) && Live(h, waits) && Ledger(h, busy)
  }

  // ---- withdrawing ----------------------------------------------------------

  /** The case `own` is released, or still agrees with `arm`. */
  ghost predicate DoneOrOk(h: Heap, arm: Arm, own: Owner, mark: Option<nat>, done: bool) {
    if done then Released(h, own) else ArmOk(h, arm, own, mark)
  }

  /** While withdrawing: the cases before `j` are released, the rest still agree. */
  ghost predicate Withdrawing(h: Heap, t: Task, arms: seq<Arm>, mark: Option<nat>, j: nat, chosen: Option<nat>) {
    forall i: nat :: i < |arms| ==> DoneOrOk(h, arms[i], Owner(t, i), mark, i < j || chosen == Some(i))
  }

  lemma RespectsDoneOrOk(h: Heap, h': Heap, mine: iset<Owner>, arm: Arm, own: Owner, mark: Option<nat>, done: bool)
    requires Respects(h, h', mine) && own !in mine && DoneOrOk(h, arm, own, mark, done)
    ensures DoneOrOk(h', arm, own, mark, done)
  {
    assert Fine(h, if done then Other(false) else arm, own, if done then None else mark, false);
  }

  lemma WithdrawOneCases(h: Heap, t: Task, arms: seq<Arm>, mark: Option<nat>, j: nat, chosen: Option<nat>)
    requires Structure(h) && j < |arms| && chosen != Some(j) && Withdrawing(h, t, arms, mark, j, chosen)
    ensures ArmOk(h, arms[j], Owner(t, j), mark) && ArmRefs(h, arms[j])
    ensures Withdrawing(WithdrawArm(h, arms[j]).0, t, arms, mark, j + 1, chosen)
  {
    var me := Owner(t, j);
    assert DoneOrOk(h, arms[j], me, mark, false);
    var h' := WithdrawArm(h, arms[j]).0;
    WithdrawArmRespects(h, arms[j], me, mark);
    WithdrawSelf(h, arms[j], me, mark);
    forall i: nat | i < |arms| ensures DoneOrOk(h', arms[i], Owner(t, i), mark, i < j + 1 || chosen == Some(i)) {
      if i != j {
        assert DoneOrOk(h, arms[i], Owner(t, i), mark, i < j || chosen == Some(i));
        RespectsDoneOrOk(h, h', iset{me}, arms[i], Owner(t, i), mark, i < j || chosen == Some(i));
      }
    }
  }

  lemma WithdrawOneGround(h: Heap, waits: map<Task, Wait>, t: Task, idx: nat, arm: Arm, mark: Option<nat>,
                          busy: Option<nat>)
    requires Ground(h, waits, t, busy) && OwnerLive(waits, Owner(t, idx)) && ArmOk(h, arm, Owner(t, idx), mark)
    ensures Ground(WithdrawArm(h, arm).0, waits, t, busy) && After(h, WithdrawArm(h, arm).0)
  {
    hide Structure, Others, Live, After, ClaimSource, Accepts, Balance, Respects;
    var me := Owner(t, idx);
    var h' := WithdrawArm(h, arm).0;
    WithdrawArmStructure(h, arm, me, mark);
    WithdrawArmRespects(h, arm, me, mark);
    WithdrawArmAfter(h, arm, me, mark);
    WithdrawArmAccepts(h, arm, busy);
    forall x: Item ensures Balance(h', x, 0) { WithdrawArmBalance(h, arm, x); }
    SameMarksClaims(h, h');
    OthersStep(h, h', waits, t, iset{me}, None);
    LiveStep(h, h', waits, iset{me});
  }

  lemma {:induction false} WithdrawFromInv(h: Heap, waits: map<Task, Wait>, t: Task, arms: seq<Arm>, mark: Option<nat>,
                        j: nat, chosen: Option<nat>, busy: Option<nat>)
    requires Ground(h, waits, t, busy) && t in waits && |waits[t].arms| == |arms|
    requires j <= |arms| && Withdrawing(h, t, arms, mark, j, chosen)
    ensures var h' := WithdrawFrom(h, arms, j, chosen);
      Ground(h', waits, t, busy) && Withdrawing(h', t, arms, mark, |arms|, chosen) && After(h, h')
    decreases |arms| - j
  {
    hide Structure, Others, Live, Ledger, After, ArmOk, DoneOrOk;
    if j == |arms| {
      AfterRefl(h);
    } else if chosen == Some(j) {
      assert forall i: nat :: i < j + 1 || chosen == Some(i) <==> i < j || chosen == Some(i);
      WithdrawFromInv(h, waits, t, arms, mark, j + 1, chosen, busy);
    } else {
      WithdrawOneCases(h, t, arms, mark, j, chosen);
      WithdrawOneGround(h, waits, t, j, arms[j], mark, busy);
      var h1 := WithdrawArm(h, arms[j]).0;
      WithdrawFromInv(h1, waits, t, arms, mark, j + 1, chosen, busy);
      AfterTrans(h, h1, WithdrawFrom(h1, arms, j + 1, chosen));
    }
  }

  // ---- resolving ------------------------------------------------------------

  ghost predicate AllReleased(h: Heap, t: Task, n: nat) {
    forall i: nat :: i < n ==> Released(h, Owner(t, i))
  }

  lemma ClaimGround(h: Heap, waits: map<Task, Wait>, t: Task, mark: Option<nat>)
    requires Ground(h, waits, t, mark)
    requires mark.Some? ==> mark.value < |h.marks| && h.marks[mark.value].owner == t
    ensures Ground(Claim(h, mark), waits, t, None) && After(h, Claim(h, mark))
  {
    var h' := Claim(h, mark);
    ClaimStructure(h, mark);
    ClaimRespects(h, mark);
    ClaimAfter(h, mark);
    OthersStep(h, h', waits, t, iset{}, mark);
    LiveStep(h, h', waits, iset{});
    forall x: Item ensures Balance(h', x, 0) { SameBalance(h, h', x, 0); }
  }

  lemma ClaimCases(h: Heap, t: Task, arms: seq<Arm>, mark: Option<nat>, chosen: Option<nat>)
    requires Structure(h) && Withdrawing(h, t, arms, mark, 0, chosen)
    ensures Withdrawing(Claim(h, mark), t, arms, mark, 0, chosen)
  {
    ClaimRespects(h, mark);
    forall i: nat | i < |arms|
      ensures DoneOrOk(Claim(h, mark), arms[i], Owner(t, i), mark, i < 0 || chosen == Some(i))
    {
      RespectsDoneOrOk(h, Claim(h, mark), iset{}, arms[i], Owner(t, i), mark, chosen == Some(i));
    }
  }

  /** Resolving a select leaves nothing of it behind. */
  lemma ResolveInv(h: Heap, waits: map<Task, Wait>, t: Task, wait: Wait, chosen: nat)
    requires Ground(h, waits, t, wait.mark) && t in waits && |waits[t].arms| == |wait.arms|
    requires wait.mark.Some? ==> wait.mark.value < |h.marks| && h.marks[wait.mark.value].owner == t
    requires Withdrawing(h, t, wait.arms, wait.mark, 0, Some(chosen))
    ensures var h' := Resolve(h, wait, chosen);
      Ground(h', waits, t, None) && AllReleased(h', t, |wait.arms|) && After(h, h')
  {
    hide Structure, Others, Live, Ledger, After, ArmOk, Released;
    var h1 := Claim(h, wait.mark);
    ClaimGround(h, waits, t, wait.mark);
    ClaimCases(h, t, wait.arms, wait.mark, Some(chosen));
    WithdrawFromInv(h1, waits, t, wait.arms, wait.mark, 0, Some(chosen), None);
    var h' := Resolve(h, wait, chosen);
    AfterTrans(h, h1, h');
    WithdrawnReleased(h', t, wait.arms, wait.mark, Some(chosen));
  }

  lemma WithdrawnReleased(h: Heap, t: Task, arms: seq<Arm>, mark: Option<nat>, chosen: Option<nat>)
    requires Withdrawing(h, t, arms, mark, |arms|, chosen)
    ensures AllReleased(h, t, |arms|)
  {
    forall i: nat | i < |arms| ensures Released(h, Owner(t, i)) {
      assert DoneOrOk(h, arms[i], Owner(t, i), mark, i < |arms| || chosen == Some(i));
    }
  }

  // ---- polling --------------------------------------------------------------

  /** The cases polled in the first `k` turns. */
  function Polled(start: nat, k: nat, n: nat): (r: set<nat>)
    requires k <= n
  {
    if k == 0 then {} else Polled(start, k - 1, n) + {Turn(start, k - 1, n)}
  }

  lemma {:induction false} TurnPolled(start: nat, j: nat, k: nat, n: nat)
    requires j < k <= n
    ensures Turn(start, j, n) in Polled(start, k, n)
  {
    if j < k - 1 { TurnPolled(start, j, k - 1, n); }
  }

  lemma ModOnce(x: nat, n: nat)
    requires n <= x < 2 * n
    ensures x % n == x - n
  {
    assert x == n * (x / n) + x % n;
    assert x / n == 1;
  }

  lemma TurnWraps(start: nat, k: nat, n: nat)
    requires start < n && k < n
    ensures Turn(start, k, n) == if start + k < n then start + k else start + k - n
  {
    if start + k >= n { ModOnce(start + k, n); }
  }

  /** Every case has its turn. */
  lemma AllPolled(start: nat, n: nat, i: nat)
    requires start < n && i < n
    ensures i in Polled(start, n, n)
  {
    var j := if i >= start then i - start else n + i - start;
    TurnWraps(start, j, n);
    TurnPolled(start, j, n, n);
  }

  /** The cases of a wait being polled; `live` when its task is to be woken. */
  ghost predicate Polling(h: Heap, t: Task, wait: Wait, polled: set<nat>, live: bool) {
    && (forall i: nat :: i < |wait.arms| ==> Fine(h, wait.arms[i], Owner(t, i), wait.mark, live && i in polled))
    && (live ==> forall i: nat :: i < |wait.arms| ==> !(wait.arms[i].Send? && wait.arms[i].eager))
  }

  lemma PollOneGround(h: Heap, waits: map<Task, Wait>, t: Task, idx: nat, arm: Arm, mark: Option<nat>, w: Waker)
    requires Ground(h, waits, t, None) && OwnerLive(waits, Owner(t, idx)) && ArmOk(h, arm, Owner(t, idx), mark)
    ensures ArmRefs(h, arm)
    ensures var s := PollArm(h, arm, Owner(t, idx), mark, w);
      Ground(s.h, waits, t, if s.out.Pending? then None else mark) && After(h, s.h)
  {
    assert ArmRefs(h, arm);
    hide Structure, Others, Live, After, ClaimSource, Accepts, Balance, Respects, ArmOk;
    var me := Owner(t, idx);
    var s := PollArm(h, arm, me, mark, w);
    PollArmStructure(h, arm, me, mark, w);
    PollArmRespects(h, arm, me, mark, w);
    PollArmAfter(h, arm, me, mark, w);
    PollArmAccepts(h, arm, me, mark, w);
    forall x: Item ensures Balance(s.h, x, 0) { PollArmBalance(h, arm, me, mark, w, x); }
    PollArmClaims(h, arm, me, mark, w);
    OthersStep(h, s.h, waits, t, iset{me}, None);
    LiveStep(h, s.h, waits, iset{me});
  }

  lemma PollOnePending(h: Heap, t: Task, wait: Wait, polled: set<nat>, live: bool, i: nat, w: Waker)
    requires Structure(h) && Polling(h, t, wait, polled, live) && i < |wait.arms| && (live ==> w == Wake(t))
    requires ArmRefs(h, wait.arms[i]) && PollArm(h, wait.arms[i], Owner(t, i), wait.mark, w).out.Pending?
    ensures var s := PollArm(h, wait.arms[i], Owner(t, i), wait.mark, w);
      Polling(s.h, t, wait.(arms := wait.arms[i := s.arm]), polled + {i}, live)
  {
    hide Structure, ArmOk;
    var me := Owner(t, i);
    assert Fine(h, wait.arms[i], me, wait.mark, live && i in polled);
    var s := PollArm(h, wait.arms[i], me, wait.mark, w);
    PollArmRespects(h, wait.arms[i], me, wait.mark, w);
    PollArmSelf(h, wait.arms[i], me, wait.mark, w);
    var arms := wait.arms[i := s.arm];
    forall j: nat | j < |arms| ensures Fine(s.h, arms[j], Owner(t, j), wait.mark, live && j in polled + {i}) {
      if j != i { assert Fine(h, wait.arms[j], Owner(t, j), wait.mark, live && j in polled); }
    }
  }

  lemma PollOneReady(h: Heap, t: Task, wait: Wait, polled: set<nat>, live: bool, i: nat, w: Waker)
    requires Structure(h) && Polling(h, t, wait, polled, live) && i < |wait.arms|
    requires ArmRefs(h, wait.arms[i]) && !PollArm(h, wait.arms[i], Owner(t, i), wait.mark, w).out.Pending?
    ensures var s := PollArm(h, wait.arms[i], Owner(t, i), wait.mark, w);
      Withdrawing(s.h, t, wait.arms[i := s.arm], wait.mark, 0, Some(i))
  {
    hide Structure, ArmOk, Released;
    var me := Owner(t, i);
    assert Fine(h, wait.arms[i], me, wait.mark, live && i in polled);
    var s := PollArm(h, wait.arms[i], me, wait.mark, w);
    PollArmRespects(h, wait.arms[i], me, wait.mark, w);
    PollArmSelf(h, wait.arms[i], me, wait.mark, w);
    var arms := wait.arms[i := s.arm];
    forall j: nat | j < |arms| ensures DoneOrOk(s.h, arms[j], Owner(t, j), wait.mark, j < 0 || Some(i) == Some(j)) {
      if j != i {
        assert Fine(h, wait.arms[j], Owner(t, j), wait.mark, live && j in polled);
      }
    }
  }

  /** What a poll of a wait leaves: either still waiting, all cases fine, or resolved and released. */
  ghost predicate PollResult(h: Heap, waits: map<Task, Wait>, t: Task, wait: Wait, out: Outcome, live: bool) {
    && Ground(h, waits, t, None)
    && (out.Waiting? ==> Polling(h, t, wait, All(|wait.arms|), live) && !Claimed(h, wait.mark))
    && (out.Chosen? ==> AllReleased(h, t, |wait.arms|))
  }

  lemma {:induction false} PollFromInv(h: Heap, waits: map<Task, Wait>, t: Task, wait: Wait, k: nat, w: Waker,
                                       live: bool)
    requires Ground(h, waits, t, None) && t in waits && |waits[t].arms| == |wait.arms|
    requires k <= |wait.arms| && (|wait.arms| > 0 ==> wait.start < |wait.arms|) && (live ==> w == Wake(t))
    requires Polling(h, t, wait, Polled(wait.start, k, |wait.arms|), live) && !Claimed(h, wait.mark)
    ensures var (h', wait', out) := PollFrom(h, t, wait, k, w);
      && PollResult(h', waits, t, wait', out, live) && After(h, h')
      && |wait'.arms| == |wait.arms| && wait'.mark == wait.mark && wait'.start == wait.start
    decreases |wait.arms| - k
  {
    hide Ground, After, AllReleased, Fine, Withdrawing;
    var n := |wait.arms|;
    if k == n {
      AfterRefl(h);
      forall i: nat | i < n ensures Fine(h, wait.arms[i], Owner(t, i), wait.mark, live && i in All(n)) {
        AllPolled(wait.start, n, i);
      }
    } else {
      var i := Turn(wait.start, k, n);
      PollCase(h, waits, t, wait, k, i, w, live);
      var s := PollArm(h, wait.arms[i], Owner(t, i), wait.mark, w);
      var wait1 := wait.(arms := wait.arms[i := s.arm]);
      if s.out.Pending? {
        PollFromInv(s.h, waits, t, wait1, k + 1, w, live);
        AfterTrans(h, s.h, PollFrom(s.h, t, wait1, k + 1, w).0);
      } else {
        AfterTrans(h, s.h, Resolve(s.h, wait1, i));
      }
    }
  }

  /** One turn: a pending case stays fine, a ready one resolves the wait. */
  lemma PollCase(h: Heap, waits: map<Task, Wait>, t: Task, wait: Wait, k: nat, i: nat, w: Waker, live: bool)
    requires Ground(h, waits, t, None) && t in waits && |waits[t].arms| == |wait.arms|
    requires k < |wait.arms| && i == Turn(wait.start, k, |wait.arms|) && (live ==> w == Wake(t))
    requires Polling(h, t, wait, Polled(wait.start, k, |wait.arms|), live) && !Claimed(h, wait.mark)
    ensures ArmRefs(h, wait.arms[i])
    ensures var s := PollArm(h, wait.arms[i], Owner(t, i), wait.mark, w);
      var wait1 := wait.(arms := wait.arms[i := s.arm]);
      && After(h, s.h)
      && (s.out.Pending? ==>
            && Ground(s.h, waits, t, None) && !Claimed(s.h, wait.mark)
            && Polling(s.h, t, wait1, Polled(wait.start, k + 1, |wait.arms|), live))
      && (!s.out.Pending? ==>
            && Ground(Resolve(s.h, wait1, i), waits, t, None)
            && AllReleased(Resolve(s.h, wait1, i), t, |wait.arms|)
            && After(s.h, Resolve(s.h, wait1, i)))
  {
    var me := Owner(t, i);
    var polled := Polled(wait.start, k, |wait.arms|);
    assert Fine(h, wait.arms[i], me, wait.mark, live && i in polled);
    assert SelectOk(h, wait.mark, me);
    hide Structure, Others, Live, Ledger, Released, ArmOk;
    PollOneGround(h, waits, t, i, wait.arms[i], wait.mark, w);
    PollArmClaims(h, wait.arms[i], me, wait.mark, w);
    var s := PollArm(h, wait.arms[i], me, wait.mark, w);
    if s.out.Pending? {
      PollOnePending(h, t, wait, polled, live, i, w);
    } else {
      PollOneReady(h, t, wait, polled, live, i, w);
      ResolveInv(s.h, waits, t, wait.(arms := wait.arms[i := s.arm]), i);
    }
  }
}
