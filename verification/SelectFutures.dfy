/** `select` as the program runs it: a future that polls, resolves and withdraws its cases in loops. */
module SelectFutures {
  import opened Basics
  import opened ChanSpec
  import opened Channels
  import opened ChanFutures
  import opened SelectSpec
  import S = ChanSpec
  import W = SelectSpec

  /** A case that becomes ready by itself: a timer that fires or a task that ends. */
  class Flag {
    var ready: bool

    constructor ()
      ensures !ready
    {
      ready := false;
    }
  }

  datatype ArmRef = RecvArm(recv: Receiving) | SendArm(send: Sending) | OtherArm(flag: Flag) {
    function Obj(): object {
      if RecvArm? then recv else if SendArm? then send else flag
    }

    /** `arm` is the abstract case; `posted` allows a send whose value was posted and withdrawn. */
    ghost predicate Is(vm: Vm, arm: Arm, mark: Option<nat>, posted: bool)
      reads Obj(), vm`chans, vm`offers, vm`waiters, vm`marks
    {
      if RecvArm? then recv.Valid(vm, mark) && recv.arm == arm
      else if SendArm? then (if posted then send.Refs(vm, mark) else send.Valid(vm, mark)) && send.arm == arm
      else arm == Other(flag.ready)
    }
  }

  class SelectFuture {
    const arms: seq<ArmRef>
    const start: nat
    const mark: SelectMark
    ghost var wait: Wait

    constructor (arms: seq<ArmRef>, start: nat, mark: SelectMark, ghost wait: Wait)
      ensures this.arms == arms && this.start == start && this.mark == mark && this.wait == wait
    {
      this.arms, this.start, this.mark, this.wait := arms, start, mark, wait;
    }

    ghost function Objects(): set<object> {
      set a | a in arms :: a.Obj()
    }

    ghost predicate Shape(vm: Vm)
      reads this, vm`marks
    {
      && vm.MarkIs(mark, wait.mark) && wait.start == start && |wait.arms| == |arms|
      && forall i, j :: 0 <= i < j < |arms| ==> arms[i].Obj() != arms[j].Obj()
    }

    /** Every case agrees with its abstract case. */
    ghost predicate Valid(vm: Vm)
      reads this, Objects(), vm`chans, vm`offers, vm`waiters, vm`marks
    {
      && Shape(vm)
      && forall i :: 0 <= i < |arms| ==> arms[i].Is(vm, wait.arms[i], wait.mark, false)
    }

    /** The cases from `j` on, but for `chosen`, can be withdrawn. */
    ghost predicate Left(vm: Vm, j: nat, chosen: Option<nat>)
      reads this, Objects(), vm`chans, vm`offers, vm`waiters, vm`marks
    {
      && Shape(vm)
      && forall i: nat :: j <= i < |arms| && chosen != Some(i) ==> arms[i].Is(vm, wait.arms[i], wait.mark, true)
    }

    lemma LeaveOne(vm: Vm, chosen: nat)
      requires Valid(vm)
      ensures Left(vm, 0, Some(chosen))
    {
      assert forall i :: 0 <= i < |arms| ==> arms[i].Is(vm, wait.arms[i], wait.mark, false);
    }

    lemma LeaveAll(vm: Vm)
      requires Valid(vm)
      ensures Left(vm, 0, None)
    {
      assert forall i :: 0 <= i < |arms| ==> arms[i].Is(vm, wait.arms[i], wait.mark, false);
    }

    lemma LeftLess(vm: Vm, j: nat, chosen: Option<nat>)
      requires Left(vm, j, chosen)
      ensures Left(vm, j + 1, chosen) && |wait.arms| == |arms|
    {
    }

    /** Poll the case `i`. */
    method PollOne(vm: Vm, i: nat, w: Waker, ghost own: Owner) returns (out: Out)
      requires vm.Valid() && Valid(vm) && i < |arms|
      modifies this`wait, arms[i].Obj(), vm, vm.chans, vm.offers, vm.waiters, vm.marks
      ensures vm.Valid() && vm.MoreObjects() && Shape(vm) && ArmRefs(old(vm.h), old(wait).arms[i])
      ensures wait == old(wait).(arms := old(wait).arms[i := wait.arms[i]])
      ensures ArmStep(vm.h, wait.arms[i], out) == S.PollArm(old(vm.h), old(wait).arms[i], own, wait.mark, w)
      ensures out.Pending? ==> arms[i].Is(vm, wait.arms[i], wait.mark, false)
    {
      hide Vm.Valid, S.PollArm, S.ArmRefs;
      assert arms[i].Is(vm, wait.arms[i], wait.mark, false);
      match arms[i]
      case RecvArm(recv) =>
        out := recv.Poll(vm, w, own, wait.mark);
        wait := wait.(arms := wait.arms[i := recv.arm]);
      case SendArm(send) =>
        out := send.Poll(vm, w, own, wait.mark);
        wait := wait.(arms := wait.arms[i := send.arm]);
      case OtherArm(flag) =>
        OtherStep(vm.h, flag.ready, own, wait.mark, w);
        assert wait.arms[i := wait.arms[i]] == wait.arms;
        out := if flag.ready then Fired else Pending;
    }

    /** Poll the case `i` and leave the others as they are. */
    method PollNext(vm: Vm, i: nat, w: Waker, ghost own: Owner) returns (out: Out)
      requires vm.Valid() && Valid(vm) && i < |arms|
      modifies this`wait, Objects(), vm, vm.chans, vm.offers, vm.waiters, vm.marks
      ensures vm.Valid() && vm.MoreObjects() && ArmRefs(old(vm.h), old(wait).arms[i])
      ensures i < |wait.arms| && wait == old(wait).(arms := old(wait).arms[i := wait.arms[i]])
      ensures ArmStep(vm.h, wait.arms[i], out) == S.PollArm(old(vm.h), old(wait).arms[i], own, wait.mark, w)
      ensures if out.Pending? then Valid(vm) else Left(vm, 0, Some(i))
    {
      hide Vm.Valid, Vm.MarkIs, Vm.Has, S.PollArm, S.ArmRefs;
      assert arms[i] in arms;
      out := PollOne(vm, i, w, own);
    }

    /** Withdraw the case `j` (`Arm::withdraw`). */
    method WithdrawOne(vm: Vm, j: nat)
      requires vm.Valid() && Shape(vm) && j < |arms| && arms[j].Is(vm, wait.arms[j], wait.mark, true)
      modifies arms[j].Obj(), vm, vm.chans, vm.offers, vm.waiters
      ensures vm.Valid() && vm.SameObjects() && ArmRefs(old(vm.h), wait.arms[j])
      ensures vm.h == S.WithdrawArm(old(vm.h), wait.arms[j]).0
    {
      hide Vm.Valid, S.WithdrawArm, S.ArmRefs;
      match arms[j]
      case RecvArm(recv) => recv.Withdraw(vm, wait.mark);
      case SendArm(send) => send.Withdraw(vm, wait.mark);
      case OtherArm(flag) => OtherGone(vm.h, flag.ready);
    }

    /** Withdraw the case `j` and leave the later ones as they are. */
    method WithdrawNext(vm: Vm, j: nat, chosen: Option<nat>)
      requires vm.Valid() && j < |arms| && chosen != Some(j) && Left(vm, j, chosen)
      modifies Objects(), vm, vm.chans, vm.offers, vm.waiters
      ensures vm.Valid() && vm.SameObjects() && Left(vm, j + 1, chosen) && ArmRefs(old(vm.h), wait.arms[j])
      ensures wait == old(wait) && vm.h == S.WithdrawArm(old(vm.h), wait.arms[j]).0
    {
      hide Vm.Valid, S.WithdrawArm, S.ArmRefs;
      assert arms[j] in arms;
      WithdrawOne(vm, j);
    }

    /** Withdraw every case but `chosen`. */
    method WithdrawAll(vm: Vm, chosen: Option<nat>)
      requires vm.Valid() && Left(vm, 0, chosen)
      modifies Objects(), vm, vm.chans, vm.offers, vm.waiters
      ensures vm.Valid() && vm.SameObjects() && wait == old(wait)
      ensures vm.h == W.WithdrawFrom(old(vm.h), wait.arms, 0, chosen)
    {
      hide Vm.Valid, S.WithdrawArm, S.ArmRefs, Left;
      LeftLess(vm, 0, chosen);
      var j := 0;
      while j < |arms|
        invariant j <= |arms| == |wait.arms| && wait == old(wait)
        invariant vm.Valid() && vm.SameObjects() && Left(vm, j, chosen)
        invariant W.WithdrawFrom(old(vm.h), wait.arms, 0, chosen) == W.WithdrawFrom(vm.h, wait.arms, j, chosen)
      {
        if chosen == Some(j) { LeftLess(vm, j, chosen); } else { WithdrawNext(vm, j, chosen); }
        j := j + 1;
      }
    }

    /** The first send case whose offer was taken (`position(Arm::delivered)`). */
    method FirstDelivered(vm: Vm) returns (found: Option<nat>)
      requires vm.Valid() && Valid(vm)
      ensures found == W.FirstDelivered(vm.h, wait.arms)
      ensures found.Some? ==> found.value < |arms|
    {
      hide Vm.Valid, S.Delivered;
      var i := 0;
      while i < |arms|
        invariant i <= |arms|
        invariant forall j :: 0 <= j < i ==> !S.Delivered(vm.h, wait.arms[j])
      {
        assert arms[i].Is(vm, wait.arms[i], wait.mark, false);
        if arms[i].SendArm? {
          var delivered := arms[i].send.Delivered(vm, wait.mark);
          if delivered { return Some(i); }
        } else {
          NotASend(vm.h, wait.arms[i]);
        }
        i := i + 1;
      }
      return None;
    }

    /** The wait ends with the case `chosen`; no other case can be chosen from here on. */
    method Resolve(vm: Vm, chosen: nat)
      requires vm.Valid() && Left(vm, 0, Some(chosen))
      modifies Objects(), mark, vm, vm.chans, vm.offers, vm.waiters
      ensures vm.Valid() && vm.SameObjects() && wait == old(wait)
      ensures vm.h == W.Resolve(old(vm.h), wait, chosen)
    {
      hide Vm.Valid, S.Claim, W.WithdrawFrom;
      mark.Claim(vm);
      WithdrawAll(vm, Some(chosen));
    }

    /** One poll: a delivered send case, else the first case that is ready, from `start` on. */
    method Poll(vm: Vm, w: Waker, ghost t: Task) returns (result: Outcome)
      requires vm.Valid() && Valid(vm)
      modifies this`wait, Objects(), mark, vm, vm.chans, vm.offers, vm.waiters, vm.marks
      ensures vm.Valid() && vm.MoreObjects()
      ensures (vm.h, wait, result) == W.PollWait(old(vm.h), t, old(wait), w)
      ensures result.Waiting? ==> Valid(vm)
    {
      hide Vm.Valid, W.Resolve, W.PollFrom, Objects;
      var delivered := FirstDelivered(vm);
      if delivered.Some? {
        LeaveOne(vm, delivered.value);
        Resolve(vm, delivered.value);
        return Chosen(delivered.value, Sent);
      }
      result := PollInTurn(vm, w, t);
    }

    /** Poll every case in turn, from `start` on and wrapping around. */
    method PollInTurn(vm: Vm, w: Waker, ghost t: Task) returns (result: Outcome)
      requires vm.Valid() && Valid(vm)
      modifies this`wait, Objects(), mark, vm, vm.chans, vm.offers, vm.waiters, vm.marks
      ensures vm.Valid() && vm.MoreObjects()
      ensures (vm.h, wait, result) == W.PollFrom(old(vm.h), t, old(wait), 0, w)
      ensures result.Waiting? ==> Valid(vm)
    {
      hide Vm.Valid, W.Resolve, W.PollFrom, S.PollArm, S.ArmRefs, ArmRef.Is, ArmRef.Obj;
      var n := |arms|;
      var k := 0;
      while k < n
        invariant k <= n && vm.Valid() && Valid(vm) && vm.MoreObjects()
        invariant W.PollFrom(old(vm.h), t, old(wait), 0, w) == W.PollFrom(vm.h, t, wait, k, w)
      {
        var i := (start + k) % n;
        ghost var h0, wait0 := vm.h, wait;
        var out := PollNext(vm, i, w, Owner(t, i));
        PollFromStep(h0, t, wait0, k, w, ArmStep(vm.h, wait.arms[i], out));
        if !out.Pending? {
          Resolve(vm, i);
          return Chosen(i, out);
        }
        k := k + 1;
      }
      PollFromEnd(vm.h, t, wait, k, w);
      return Waiting;
    }

    /** Poll once without waiting (`poll_now`): `Waiting` when no case is ready and all are withdrawn. */
    method PollNow(vm: Vm, ghost t: Task) returns (result: Outcome)
      requires vm.Valid() && Valid(vm)
      modifies this`wait, Objects(), mark, vm, vm.chans, vm.offers, vm.waiters, vm.marks
      ensures vm.Valid() && vm.MoreObjects()
      ensures (vm.h, result) == W.PollNow(old(vm.h), t, Eager(old(wait)))
    {
      hide Vm.Valid, ArmRef.Is, W.PollWait, W.WithdrawFrom, S.Claim;
      SetEager(vm);
      result := Poll(vm, Noop, t);
      if result.Waiting? { GiveUp(vm); }
    }

    /** No case was ready: claim the select and withdraw every case (`withdraw_all`). */
    method GiveUp(vm: Vm)
      requires vm.Valid() && Valid(vm)
      modifies Objects(), mark, vm, vm.chans, vm.offers, vm.waiters
      ensures vm.Valid() && vm.SameObjects() && wait == old(wait)
      ensures vm.h == W.WithdrawFrom(S.Claim(old(vm.h), wait.mark), wait.arms, 0, None)
    {
      hide Vm.Valid, W.WithdrawFrom, S.Claim;
      LeaveAll(vm);
      mark.Claim(vm);
      WithdrawAll(vm, None);
    }

    /** Make every send case not wait. */
    method SetEager(vm: Vm)
      requires Valid(vm)
      modifies this`wait, Objects()
      ensures Valid(vm) && wait == Eager(old(wait))
    {
      var j := 0;
      assert EagerFrom(wait.arms, 0) == wait.arms;
      while j < |arms|
        invariant j <= |arms| && Valid(vm)
        invariant wait == old(wait).(arms := EagerFrom(old(wait).arms, j))
      {
        SetOneEager(vm, j);
        assert EagerFrom(old(wait).arms, j + 1) == wait.arms;
        j := j + 1;
      }
    }

    method SetOneEager(vm: Vm, j: nat)
      requires Valid(vm) && j < |arms|
      modifies this`wait, Objects()
      ensures Valid(vm) && |wait.arms| == |old(wait).arms|
      ensures wait == old(wait).(arms := old(wait).arms[j :=
        if wait.arms[j].Send? then old(wait).arms[j].(eager := true) else old(wait).arms[j]])
    {
      assert arms[j] in arms && arms[j].Is(vm, wait.arms[j], wait.mark, false);
      if arms[j].SendArm? {
        var send := arms[j].send;
        send.SetEager(vm, wait.mark);
        wait := wait.(arms := wait.arms[j := send.arm]);
      } else {
        assert wait.arms[j := wait.arms[j]] == wait.arms;
      }
    }

    /** The wait saw its cancel: a delivered send case still counts; otherwise every case is dropped. */
    method Cancel(vm: Vm) returns (result: Outcome)
      requires vm.Valid() && Valid(vm)
      modifies Objects(), mark, vm, vm.chans, vm.offers, vm.waiters
      ensures vm.Valid() && vm.SameObjects()
      ensures (vm.h, result) == W.CancelWait(old(vm.h), wait)
    {
      hide Vm.Valid, W.Resolve, W.WithdrawFrom;
      var delivered := FirstDelivered(vm);
      if delivered.Some? {
        LeaveOne(vm, delivered.value);
        Resolve(vm, delivered.value);
        return Chosen(delivered.value, Sent);
      }
      DropAll(vm);
      return Waiting;
    }

    /** The select is dropped: withdraw every case. */
    method DropAll(vm: Vm)
      requires vm.Valid() && Valid(vm)
      modifies Objects(), vm, vm.chans, vm.offers, vm.waiters
      ensures vm.Valid() && vm.SameObjects() && wait == old(wait)
      ensures vm.h == W.WithdrawFrom(old(vm.h), wait.arms, 0, None)
    {
      hide Vm.Valid, W.WithdrawFrom;
      LeaveAll(vm);
      WithdrawAll(vm, None);
    }
  }

  /** The wait with its sends made not to wait. */
  function Eager(wait: Wait): (r: Wait)
    ensures |r.arms| == |wait.arms|
  {
    wait.(arms := EagerFrom(wait.arms, |wait.arms|))
  }

  /** `arms` with the sends before `j` made not to wait. */
  function EagerFrom(arms: seq<Arm>, j: nat): (r: seq<Arm>)
    ensures |r| == |arms|
  {
    seq(|arms|, i requires 0 <= i < |arms| =>
      if i < j && arms[i].Send? then arms[i].(eager := true) else arms[i])
  }

  /** A check builds its cases with sends that do not wait. */
  lemma EagerBuilt(cases: seq<Case>, base: nat, mark: Option<nat>, start: nat)
    ensures Eager(Wait(BuildArms(cases, base, mark, false), start, mark))
         == Wait(BuildArms(cases, base, mark, true), start, mark)
  {
    var n := |cases|;
    assert EagerFrom(BuildArms(cases, base, mark, false), n) == BuildArms(cases, base, mark, true);
  }

  /** A plain `recv` or `send`: one case polled directly is the wait of that one case. */
  lemma PlainPoll(h: Heap, t: Task, arm: Arm, w: Waker)
    requires ArmRefs(h, arm) && (arm.Send? && arm.offer.Some? ==> h.chans[arm.chan].cap == 0)
    ensures var s := S.PollArm(h, arm, Owner(t, 0), None, w);
      W.PollWait(h, t, Wait([arm], 0, None), w) ==
        (s.h, Wait([s.arm], 0, None), if s.out.Pending? then Waiting else Chosen(0, s.out))
  {
    var wait := Wait([arm], 0, None);
    var s := S.PollArm(h, arm, Owner(t, 0), None, w);
    assert [arm][0 := s.arm] == [s.arm];
    assert Turn(0, 0, 1) == 0;
    PollFromEnd(s.h, t, Wait([s.arm], 0, None), 1, w);
    PollFromStep(h, t, wait, 0, w, s);
    NothingElse(s.h, [s.arm]);
    NothingElse(h, [arm]);
    if S.Delivered(h, arm) { DeliveredPoll(h, arm, Owner(t, 0), w); }
  }

  lemma NothingElse(h: Heap, arms: seq<Arm>)
    requires |arms| == 1
    ensures W.WithdrawFrom(h, arms, 0, Some(0)) == h
  {
    assert W.WithdrawFrom(h, arms, 1, Some(0)) == h;
  }

  lemma PollFromStep(h: Heap, t: Task, wait: Wait, k: nat, w: Waker, s: ArmStep)
    requires k < |wait.arms|
    requires var i := Turn(wait.start, k, |wait.arms|);
      ArmRefs(h, wait.arms[i]) && s == S.PollArm(h, wait.arms[i], Owner(t, i), wait.mark, w)
    ensures var i := Turn(wait.start, k, |wait.arms|);
      var wait1 := wait.(arms := wait.arms[i := s.arm]);
      W.PollFrom(h, t, wait, k, w) ==
        if s.out.Pending? then W.PollFrom(s.h, t, wait1, k + 1, w)
        else (W.Resolve(s.h, wait1, i), wait1, Chosen(i, s.out))
  {
  }

  lemma PollFromEnd(h: Heap, t: Task, wait: Wait, k: nat, w: Waker)
    requires k >= |wait.arms|
    ensures W.PollFrom(h, t, wait, k, w) == (h, wait, Waiting)
  {
  }

  lemma OtherStep(h: Heap, ready: bool, own: Owner, mark: Option<nat>, w: Waker)
    ensures ArmRefs(h, Other(ready))
    ensures S.PollArm(h, Other(ready), own, mark, w) == ArmStep(h, Other(ready), if ready then Fired else Pending)
  {
  }

  lemma OtherGone(h: Heap, ready: bool)
    ensures ArmRefs(h, Other(ready)) && S.WithdrawArm(h, Other(ready)).0 == h
  {
  }

  lemma DeliveredPoll(h: Heap, arm: Arm, own: Owner, w: Waker)
    requires ArmRefs(h, arm) && S.Delivered(h, arm) && h.chans[arm.chan].cap == 0
    ensures S.PollArm(h, arm, own, None, w) == ArmStep(h, arm, Sent)
  {
  }

  lemma NotASend(h: Heap, arm: Arm)
    ensures !arm.Send? ==> !S.Delivered(h, arm)
  {
  }
}
