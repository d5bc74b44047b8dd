/**
 The tasks of a VM and what they wait for.

 A wait is a plain `recv` or `send` (one case, no mark) or a `select` (its
 cases share a mark).  One operation is one poll of one wait or one
 synchronous call; operations of different tasks interleave arbitrarily.
 */
module SelectSpec {
  import opened Basics
  import opened ChanSpec

  /** A wait in progress: its cases, where polling starts, and its mark. */
  datatype Wait = Wait(arms: seq<Arm>, start: nat, mark: Option<nat>)

  datatype World = World(h: Heap, waits: map<Task, Wait>)

  /** A case as a program writes it. */
  datatype Case = RecvCase(chan: nat) | SendCase(chan: nat, value: Value) | OtherCase(ready: bool)

  /** What a poll of a wait came to. */
  datatype Outcome = Waiting | Chosen(case_: nat, out: Out)

  datatype Op =
    | NewChan(cap: nat)
    | StartPlain(task: Task, plain: Case)
    | StartSelect(task: Task, cases: seq<Case>, start: nat)
    | CheckNow(task: Task, cases: seq<Case>, start: nat)
    | Poll(task: Task)
    | Cancel(task: Task)
    | Drop(task: Task)
    | MakeReady(task: Task, idx: nat)
    | DoTrySend(task: Task, chan: nat, value: Value)
    | DoTryRecv(chan: nat)
    | DoClose(chan: nat)
    | PutBack(chan: nat, item: Item)

  function EmptyHeap(): Heap {
    Heap([], [], [], [], {}, [], multiset{}, multiset{})
  }

  function Init(): World {
    World(EmptyHeap(), map[])
  }

  // ---- waits --------------------------------------------------------------

  predicate CaseOk(h: Heap, c: Case) {
    c.OtherCase? || c.chan < |h.chans|
  }

  /** The cases of a new wait; case `i` uses the serial `base + i`. */
  function BuildArms(cases: seq<Case>, base: nat, mark: Option<nat>, eager: bool): (r: seq<Arm>)
    ensures |r| == |cases|
  {
    seq(|cases|, i requires 0 <= i < |cases| =>
      match cases[i]
      case RecvCase(c) => Recv(c, None)
      case SendCase(c, v) => Send(c, Item(v, base + i, mark), None, eager)
      case OtherCase(ready) => Other(ready))
  }

  /** Serials for the cases of a new wait of `t`. */
  function AddSends(h: Heap, t: Task, n: nat): (r: Heap) {
    h.(sends := h.sends + seq(n, i requires 0 <= i < n => InFlight(Owner(t, i))))
  }

  function AddMark(h: Heap, t: Task): Heap {
    h.(marks := h.marks + [MarkRec(false, t)])
  }

  function NewWait(h: Heap, t: Task, cases: seq<Case>, start: nat, mark: Option<nat>, eager: bool): (Heap, Wait) {
    (AddSends(h, t, |cases|), Wait(BuildArms(cases, |h.sends|, mark, eager), start, mark))
  }

  /** The `k`-th case to poll, from `start` on and wrapping around. */
  function Turn(start: nat, k: nat, n: nat): (i: nat)
    requires k < n
    ensures i < n
  {
    (start + k) % n
  }

  /** The first send case whose offer was taken. */
  function FirstDelivered(h: Heap, arms: seq<Arm>): (r: Option<nat>)
    ensures r.Some? ==> r.value < |arms| && Delivered(h, arms[r.value])
    ensures r.Some? ==> forall i :: 0 <= i < r.value ==> !Delivered(h, arms[i])
    ensures r.None? ==> forall i :: 0 <= i < |arms| ==> !Delivered(h, arms[i])
  {
    if arms == [] then None
    else if Delivered(h, arms[0]) then Some(0)
    else
      var r := FirstDelivered(h, arms[1..]);
      if r.Some? then Some(r.value + 1) else None
  }

  // ---- steps of one wait --------------------------------------------------

  /** Withdraw the cases from `j` on, but for `chosen`. */
  function WithdrawFrom(h: Heap, arms: seq<Arm>, j: nat, chosen: Option<nat>): Heap
    decreases |arms| - j
  {
    if j >= |arms| then h
    else if chosen == Some(j) || !ArmRefs(h, arms[j]) then WithdrawFrom(h, arms, j + 1, chosen)
    else WithdrawFrom(WithdrawArm(h, arms[j]).0, arms, j + 1, chosen)
  }

  /** End the wait with the case `chosen`: the mark is claimed and no other case stays (`resolve`). */
  function Resolve(h: Heap, wait: Wait, chosen: nat): Heap {
    WithdrawFrom(Claim(h, wait.mark), wait.arms, 0, Some(chosen))
  }

  /** Poll the cases from the `k`-th on; the first that is ready is chosen. */
  function PollFrom(h: Heap, t: Task, wait: Wait, k: nat, w: Waker): (r: (Heap, Wait, Outcome))
    decreases |wait.arms| - k
  {
    if k >= |wait.arms| then (h, wait, Waiting)
    else
      var i := Turn(wait.start, k, |wait.arms|);
      if !ArmRefs(h, wait.arms[i]) then PollFrom(h, t, wait, k + 1, w)
      else
        var s := PollArm(h, wait.arms[i], Owner(t, i), wait.mark, w);
        var wait1 := wait.(arms := wait.arms[i := s.arm]);
        if s.out.Pending? then PollFrom(s.h, t, wait1, k + 1, w)
        else (Resolve(s.h, wait1, i), wait1, Chosen(i, s.out))
  }

  /** One poll of a wait (`SelectFuture::poll`): a delivered send case comes first. */
  function PollWait(h: Heap, t: Task, wait: Wait, w: Waker): (Heap, Wait, Outcome) {
    var d := FirstDelivered(h, wait.arms);
    if d.Some? then (Resolve(h, wait, d.value), wait, Chosen(d.value, Sent))
    else PollFrom(h, t, wait, 0, w)
  }

  /** A check without waiting (`poll_now`): `Waiting` means that the default runs. */
  function PollNow(h: Heap, t: Task, wait: Wait): (Heap, Outcome) {
    var (h1, wait1, out) := PollWait(h, t, wait, Noop);
    if out.Waiting? then (WithdrawFrom(Claim(h1, wait.mark), wait1.arms, 0, None), Waiting)
    else (h1, out)
  }

  /** The wait saw its cancel: a delivered send case still counts; otherwise all is withdrawn. */
  function CancelWait(h: Heap, wait: Wait): (Heap, Outcome) {
    var d := FirstDelivered(h, wait.arms);
    if d.Some? then (Resolve(h, wait, d.value), Chosen(d.value, Sent))
    else (WithdrawFrom(h, wait.arms, 0, None), Waiting)
  }

  // ---- one operation ------------------------------------------------------

  /** What must hold for the program to perform `op`. */
  predicate Enabled(w: World, op: Op) {
    match op
    case NewChan(_) => true
    case StartPlain(t, c) => t !in w.waits && CaseOk(w.h, c)
    case StartSelect(t, cases, start) =>
      && t !in w.waits && cases != [] && start < |cases|
      && forall c :: c in cases ==> CaseOk(w.h, c)
    case CheckNow(t, cases, start) =>
      && t !in w.waits && (cases == [] || start < |cases|)
      && forall c :: c in cases ==> CaseOk(w.h, c)
    case Poll(t) => t in w.waits
    case Cancel(t) => t in w.waits
    case Drop(t) => t in w.waits
    case MakeReady(t, i) => t in w.waits && i < |w.waits[t].arms| && w.waits[t].arms[i].Other?
    case DoTrySend(t, c, _) => t !in w.waits && c < |w.h.chans|
    case DoTryRecv(c) => c < |w.h.chans|
    case DoClose(c) => c < |w.h.chans|
    case PutBack(c, item) => c < |w.h.chans| && item in w.h.handed
  }

  function Asleep(h: Heap, t: Task): Heap {
    h.(woken := h.woken - {t})
  }

  function Awake(h: Heap, t: Task): Heap {
    h.(woken := h.woken + {t})
  }

  function Apply(w: World, op: Op): World
    requires Enabled(w, op)
  {
    match op
    case NewChan(cap) =>
      w.(h := w.h.(chans := w.h.chans + [FreshChan(cap)]))
    case StartPlain(t, c) =>
      var (h1, wait) := NewWait(w.h, t, [c], 0, None, false);
      World(Awake(h1, t), w.waits[t := wait])
    case StartSelect(t, cases, start) =>
      var (h1, wait) := NewWait(AddMark(w.h, t), t, cases, start, Some(|w.h.marks|), false);
      World(Awake(h1, t), w.waits[t := wait])
    case CheckNow(t, cases, start) =>
      var (h1, wait) := NewWait(AddMark(w.h, t), t, cases, start, Some(|w.h.marks|), true);
      w.(h := PollNow(h1, t, wait).0)
    case Poll(t) =>
      var (h1, wait, out) := PollWait(Asleep(w.h, t), t, w.waits[t], Wake(t));
      World(h1, if out.Waiting? then w.waits[t := wait] else w.waits - {t})
    case Cancel(t) => World(CancelWait(w.h, w.waits[t]).0, w.waits - {t})
    case Drop(t) => World(WithdrawFrom(w.h, w.waits[t].arms, 0, None), w.waits - {t})
    case MakeReady(t, i) =>
      var wait := w.waits[t];
      World(Awake(w.h, t), w.waits[t := wait.(arms := wait.arms[i := Other(true)])])
    case DoTrySend(t, c, v) => w.(h := TrySend(w.h, t, c, v).0)
    case DoTryRecv(c) => w.(h := TryRecv(w.h, c).0)
    case DoClose(c) => w.(h := Close(w.h, c))
    case PutBack(c, item) => w.(h := Unrecv(w.h, c, item))
  }
}
