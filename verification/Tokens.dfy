/**
 Cancel tokens shared by threads.

 A step is one atomic action of one thread: swap a flag, take the locked
 child list, visit one child, or one part of `child_token` (lock, check the
 flag, push).  Any number of `cancel` and `child_token` calls interleave, and
 tokens that nobody holds disappear at any moment.
 */
module Tokens {
  import opened Basics
  import F = Forest

  /** `children` are weak: an entry may be dead.  `lock` is the thread that locked the list. */
  datatype Token = Token(
    flag: bool, parent: Option<nat>, children: seq<nat>, sweepAt: nat, alive: bool, lock: Option<nat>)

  /** A `cancel` in progress on one token; `Visit` holds the children still to be visited. */
  datatype CancelPc = Swap | Take | Visit(rest: seq<nat>)
  datatype Frame = Frame(token: nat, pc: CancelPc)

  datatype CreatePc = WantLock | Locked | Unflagged
  datatype Thread = Idle | Creating(parent: nat, child: nat, pc: CreatePc) | Cancelling(frames: seq<Frame>)

  /** `called` holds the tokens on which `cancel` was called. */
  datatype State = State(tokens: seq<Token>, threads: seq<Thread>, called: set<nat>)

  datatype Step =
    | NewRoot
    | CallCancel(th: nat, token: nat) | CancelStep(th: nat)
    | CallChild(th: nat, token: nat) | LockList(th: nat) | CheckFlag(th: nat) | PushChild(th: nat)
    | Die(token: nat)

  function NewToken(parent: Option<nat>): Token {
    Token(false, parent, [], 0, true, None)
  }

  function Init(threads: nat): State {
    State([], seq(threads, _ => Idle), {})
  }

  predicate Live(s: State, t: nat) {
    t < |s.tokens| && s.tokens[t].alive
  }

  /** The thread keeps `t` alive: it is running a method of `t`. */
  predicate Holds(th: Thread, t: nat) {
    match th
    case Idle => false
    case Creating(p, c, _) => p == t || c == t
    case Cancelling(frames) => exists f :: f in frames && f.token == t
  }

  predicate CreatingAt(s: State, th: nat, pc: CreatePc) {
    && th < |s.threads| && s.threads[th].Creating? && s.threads[th].pc == pc
    && s.threads[th].parent < |s.tokens| && s.threads[th].child < |s.tokens|
  }

  /** The frame on top of the thread's stack. */
  predicate CancellingAt(s: State, th: nat) {
    && th < |s.threads| && s.threads[th].Cancelling? && s.threads[th].frames != []
    && Top(s.threads[th].frames).token < |s.tokens|
  }

  function Top(frames: seq<Frame>): Frame
    requires frames != []
  {
    frames[|frames| - 1]
  }

  function Below(frames: seq<Frame>): seq<Frame>
    requires frames != []
  {
    frames[..|frames| - 1]
  }

  predicate Enabled(s: State, step: Step) {
    match step
    case NewRoot => true
    case CallCancel(th, t) => th < |s.threads| && s.threads[th].Idle? && Live(s, t)
    case CancelStep(th) =>
      && CancellingAt(s, th)
      && var f := Top(s.threads[th].frames); f.pc.Take? ==> s.tokens[f.token].lock.None?
    case CallChild(th, t) => th < |s.threads| && s.threads[th].Idle? && Live(s, t)
    case LockList(th) => CreatingAt(s, th, WantLock) && s.tokens[s.threads[th].parent].lock.None?
    case CheckFlag(th) => CreatingAt(s, th, Locked)
    case PushChild(th) => CreatingAt(s, th, Unflagged)
    case Die(t) =>
      && Live(s, t)
      && (forall c :: 0 <= c < |s.tokens| && s.tokens[c].alive ==> s.tokens[c].parent != Some(t))
      && (forall th :: 0 <= th < |s.threads| ==> !Holds(s.threads[th], t))
  }

  function SetThread(s: State, th: nat, thread: Thread): State
    requires th < |s.threads|
  {
    s.(threads := s.threads[th := thread])
  }

  function SetToken(s: State, t: nat, token: Token): State
    requires t < |s.tokens|
  {
    s.(tokens := s.tokens[t := token])
  }

  /** The stack without its top frame. */
  function Return(frames: seq<Frame>): Thread
    requires frames != []
  {
    if |frames| == 1 then Idle else Cancelling(Below(frames))
  }

  /** One step of the top frame (`Inner::cancel`). */
  function CancelOnce(s: State, th: nat): State
    requires CancellingAt(s, th)
  {
    var frames := s.threads[th].frames;
    var f := Top(frames);
    var token := s.tokens[f.token];
    match f.pc
    case Swap =>
      if token.flag then SetThread(s, th, Return(frames))
      else SetThread(SetToken(s, f.token, token.(flag := true)), th, Cancelling(Below(frames) + [Frame(f.token, Take)]))
    case Take =>
      SetThread(SetToken(s, f.token, token.(children := [])), th,
        Cancelling(Below(frames) + [Frame(f.token, Visit(token.children))]))
    case Visit(rest) =>
      if rest == [] then SetThread(s, th, Return(frames))
      else
        var visited := Below(frames) + [Frame(f.token, Visit(rest[1..]))];
        SetThread(s, th, Cancelling(if Live(s, rest[0]) then visited + [Frame(rest[0], Swap)] else visited))
  }

  /** The entries of `list` that are alive, in order. */
  function Sweep(s: State, list: seq<nat>): (r: seq<nat>)
    ensures forall c :: c in r <==> c in list && Live(s, c)
    ensures |r| <= |list|
  {
    if list == [] then []
    else
      var rest := Sweep(s, list[1..]);
      assert forall c :: c in list <==> c == list[0] || c in list[1..];
      if Live(s, list[0]) then [list[0]] + rest else rest
  }

  /** Add `c` to the children of `token`, sweeping dead ones first when there are many. */
  function AddChild(s: State, token: Token, c: nat): Token {
    if |token.children| >= token.sweepAt then
      var swept := Sweep(s, token.children);
      token.(children := swept + [c], sweepAt := Max(2 * |swept|, 16))
    else token.(children := token.children + [c])
  }

  function Apply(s: State, step: Step): State
    requires Enabled(s, step)
  {
    match step
    case NewRoot => s.(tokens := s.tokens + [NewToken(None)])
    case CallCancel(th, t) => SetThread(s, th, Cancelling([Frame(t, Swap)])).(called := s.called + {t})
    case CancelStep(th) => CancelOnce(s, th)
    case CallChild(th, t) =>
      SetThread(s, th, Creating(t, |s.tokens|, WantLock)).(tokens := s.tokens + [NewToken(Some(t))])
    case LockList(th) =>
      var p := s.threads[th].parent;
      SetThread(SetToken(s, p, s.tokens[p].(lock := Some(th))), th, s.threads[th].(pc := Locked))
    case CheckFlag(th) =>
      var p := s.threads[th].parent;
      if s.tokens[p].flag then
        SetThread(SetToken(s, p, s.tokens[p].(lock := None)), th, Cancelling([Frame(s.threads[th].child, Swap)]))
      else SetThread(s, th, s.threads[th].(pc := Unflagged))
    case PushChild(th) =>
      var p := s.threads[th].parent;
      SetThread(SetToken(s, p, AddChild(s, s.tokens[p], s.threads[th].child).(lock := None)), th, Idle)
    case Die(t) => SetToken(s, t, s.tokens[t].(alive := false))
  }

  ghost predicate RunsTo(s: State, steps: seq<Step>, s': State)
    decreases |steps|
  {
    if steps == [] then s' == s
    else Enabled(s, steps[0]) && RunsTo(Apply(s, steps[0]), steps[1..], s')
  }

  ghost predicate Reachable(s: State) {
    exists threads: nat, steps: seq<Step> :: RunsTo(Init(threads), steps, s)
  }

  // ---- structure ---------------------------------------------------------------

  ghost predicate FrameOk(s: State, f: Frame) {
    && f.token < |s.tokens|
    && (f.pc.Visit? ==> forall c :: c in f.pc.rest ==> c < |s.tokens| && s.tokens[c].parent == Some(f.token))
  }

  ghost predicate ThreadOk(s: State, th: nat)
    requires th < |s.threads|
  {
    match s.threads[th]
    case Idle => true
    case Creating(p, c, pc) =>
      && p < |s.tokens| && c < |s.tokens| && s.tokens[c].parent == Some(p)
      && (!pc.WantLock? ==> s.tokens[p].lock == Some(th))
    case Cancelling(frames) => frames != [] && forall f :: f in frames ==> FrameOk(s, f)
  }

  ghost predicate TokenOk(s: State, t: nat)
    requires t < |s.tokens|
  {
    var token := s.tokens[t];
    && (token.parent.Some? ==> token.parent.value < t)
    && (token.parent.Some? && token.alive ==> Live(s, token.parent.value))
    && (forall c :: c in token.children ==> c < |s.tokens| && s.tokens[c].parent == Some(t))
  }

  ghost predicate Structure(s: State) {
    && (forall t {:trigger s.tokens[t]} :: 0 <= t < |s.tokens| ==> TokenOk(s, t))
    && (forall th {:trigger s.threads[th]} :: 0 <= th < |s.threads| ==> ThreadOk(s, th))
  }

  // ---- nothing is missed --------------------------------------------------------

  /** A thread that set the flag of `p` has yet to take its child list. */
  ghost predicate TakePending(s: State, p: nat) {
    exists th :: 0 <= th < |s.threads| && s.threads[th].Cancelling? && Frame(p, Take) in s.threads[th].frames
  }

  ghost predicate Visits(frames: seq<Frame>, p: nat, c: nat) {
    exists f :: f in frames && f.token == p && f.pc.Visit? && c in f.pc.rest
  }

  /** The thread is on its way to cancelling `c`, or is creating it. */
  ghost predicate Reaches(th: Thread, p: nat, c: nat) {
    match th
    case Idle => false
    case Creating(p', c', _) => p' == p && c' == c
    case Cancelling(frames) => Visits(frames, p, c) || Frame(c, Swap) in frames
  }

  ghost predicate Reached(s: State, p: nat, c: nat) {
    exists th :: 0 <= th < |s.threads| && Reaches(s.threads[th], p, c)
  }

  /** A live child that is not cancelled will be found by whoever cancels, or cancelled, its parent. */
  ghost predicate Tracked(s: State, c: nat)
    requires c < |s.tokens|
  {
    var p := s.tokens[c].parent;
    s.tokens[c].alive && !s.tokens[c].flag && p.Some? && p.value < |s.tokens| ==>
      || Reached(s, p.value, c)
      || (c in s.tokens[p.value].children && (s.tokens[p.value].flag ==> TakePending(s, p.value)))
  }

  /** A child about to be pushed: if its parent was cancelled since, the list is yet to be taken. */
  ghost predicate PushOk(s: State, th: nat)
    requires th < |s.threads|
  {
    var thread := s.threads[th];
    thread.Creating? && thread.pc.Unflagged? && thread.parent < |s.tokens| && s.tokens[thread.parent].flag
    ==> TakePending(s, thread.parent)
  }

  ghost predicate NothingMissed(s: State) {
    && (forall c {:trigger s.tokens[c]} :: 0 <= c < |s.tokens| ==> Tracked(s, c))
    && (forall th {:trigger s.threads[th]} :: 0 <= th < |s.threads| ==> PushOk(s, th))
  }

  // ---- nothing is cancelled without cause ----------------------------------------

  /** `cancel` was called on `t` or on an ancestor. */
  ghost predicate Caused(s: State, t: nat)
    decreases t
  {
    || t in s.called
    || (t < |s.tokens| && s.tokens[t].parent.Some? && s.tokens[t].parent.value < t
        && Caused(s, s.tokens[t].parent.value))
  }

  ghost predicate FramesCaused(s: State, th: Thread) {
    th.Cancelling? ==> forall f :: f in th.frames ==> Caused(s, f.token)
  }

  ghost predicate Causes(s: State) {
    && (forall t {:trigger s.tokens[t]} :: 0 <= t < |s.tokens| && s.tokens[t].flag ==> Caused(s, t))
    && (forall th {:trigger s.threads[th]} :: 0 <= th < |s.threads| ==> FramesCaused(s, s.threads[th]))
  }

  ghost predicate Inv(s: State) {
    Structure(s) && NothingMissed(s) && Causes(s)
  }

  // ---- every step keeps the invariant ----------------------------------------------

  /** Tokens keep their parents. */
  ghost predicate Extends(s: State, s': State) {
    && |s.tokens| <= |s'.tokens|
    && forall t {:trigger s'.tokens[t]} :: 0 <= t < |s.tokens| ==> s'.tokens[t].parent == s.tokens[t].parent
  }

  lemma ExtendsOk(s: State, s': State, th: nat)
    requires Extends(s, s') && th < |s.threads| && th < |s'.threads| && s'.threads[th] == s.threads[th]
    requires ThreadOk(s, th)
    requires forall t {:trigger s'.tokens[t]} :: 0 <= t < |s.tokens| && s.tokens[t].lock == Some(th) ==>
      s'.tokens[t].lock == Some(th)
    ensures ThreadOk(s', th)
  {
  }

  lemma CancelStructure(s: State, th: nat)
    requires Structure(s) && Enabled(s, CancelStep(th))
    ensures Structure(Apply(s, CancelStep(th)))
  {
    var s' := Apply(s, CancelStep(th));
    hide TokenOk;
    assert Extends(s, s');
    CancelTokens(s, th);
    CancelFrames(s, th);
    forall u | 0 <= u < |s'.threads| ensures ThreadOk(s', u) {
      if u != th {
        assert ThreadOk(s, u);
        ExtendsOk(s, s', u);
      }
    }
  }

  /** The stack of a thread in the middle of a cancel stays in order. */
  lemma CancelFrames(s: State, th: nat)
    requires Structure(s) && Enabled(s, CancelStep(th))
    ensures ThreadOk(Apply(s, CancelStep(th)), th)
  {
    var s' := Apply(s, CancelStep(th));
    var frames := s.threads[th].frames;
    var f := Top(frames);
    assert ThreadOk(s, th) && TokenOk(s, f.token);
    assert f in frames;
    if s'.threads[th].Cancelling? {
      forall g | g in s'.threads[th].frames ensures FrameOk(s', g) {
        if g in frames {
          assert FrameOk(s, g);
        } else if g.pc.Visit? {
          assert FrameOk(s, f) && g.token == f.token;
          assert forall c :: c in g.pc.rest ==>
            c in (if f.pc.Take? then s.tokens[f.token].children else f.pc.rest);
        }
      }
    }
  }

  lemma CancelTokens(s: State, th: nat)
    requires Structure(s) && Enabled(s, CancelStep(th))
    ensures var s' := Apply(s, CancelStep(th)); forall t :: 0 <= t < |s'.tokens| ==> TokenOk(s', t)
  {
    var s' := Apply(s, CancelStep(th));
    forall t | 0 <= t < |s'.tokens| ensures TokenOk(s', t) { assert TokenOk(s, t); }
  }

  predicate IsCall(step: Step) {
    step.NewRoot? || step.CallCancel? || step.CallChild?
  }

  predicate OnList(step: Step) {
    step.LockList? || step.CheckFlag? || step.PushChild?
  }

  lemma CallStructure(s: State, step: Step)
    requires Structure(s) && Enabled(s, step) && IsCall(step)
    ensures Structure(Apply(s, step))
  {
    var s' := Apply(s, step);
    assert Extends(s, s');
    forall u | 0 <= u < |s'.threads| ensures ThreadOk(s', u) {
      assert ThreadOk(s, u);
      if step.NewRoot? || u != step.th { ExtendsOk(s, s', u); }
    }
    forall t | 0 <= t < |s'.tokens| ensures TokenOk(s', t) {
      if t < |s.tokens| { assert TokenOk(s, t); }
    }
  }

  lemma ListStructure(s: State, step: Step)
    requires Structure(s) && Enabled(s, step) && OnList(step)
    ensures Structure(Apply(s, step))
  {
    hide TokenOk;
    var s' := Apply(s, step);
    assert ThreadOk(s, step.th);
    assert Extends(s, s');
    ListTokens(s, step);
    forall u | 0 <= u < |s'.threads| ensures ThreadOk(s', u) {
      assert ThreadOk(s, u);
      if u != step.th { ExtendsOk(s, s', u); }
    }
  }

  lemma ListTokens(s: State, step: Step)
    requires Structure(s) && Enabled(s, step) && OnList(step)
    ensures var s' := Apply(s, step); forall t :: 0 <= t < |s'.tokens| ==> TokenOk(s', t)
  {
    var s' := Apply(s, step);
    assert ThreadOk(s, step.th);
    forall t | 0 <= t < |s'.tokens| ensures TokenOk(s', t) { assert TokenOk(s, t); }
  }

  lemma DieStructure(s: State, t: nat)
    requires Structure(s) && Enabled(s, Die(t))
    ensures Structure(Apply(s, Die(t)))
  {
    var s' := Apply(s, Die(t));
    forall u | 0 <= u < |s'.threads| ensures ThreadOk(s', u) {
      assert ThreadOk(s, u);
      ExtendsOk(s, s', u);
    }
    forall c | 0 <= c < |s'.tokens| ensures TokenOk(s', c) { assert TokenOk(s, c); }
  }

  // ---- nothing is missed: every step ------------------------------------------------

  /** A thread that does not move keeps reaching what it reaches. */
  lemma StillReached(s: State, s': State, th: nat, p: nat, c: nat)
    requires |s'.threads| == |s.threads|
    requires forall u :: 0 <= u < |s.threads| && u != th ==> s'.threads[u] == s.threads[u]
    requires Reached(s, p, c) && (th < |s.threads| && Reaches(s.threads[th], p, c) ==> Reached(s', p, c))
    ensures Reached(s', p, c)
  {
    var u :| 0 <= u < |s.threads| && Reaches(s.threads[u], p, c);
    if u != th { assert Reaches(s'.threads[u], p, c); }
  }

  lemma StillPending(s: State, s': State, th: nat, p: nat)
    requires |s'.threads| == |s.threads|
    requires forall u :: 0 <= u < |s.threads| && u != th ==> s'.threads[u] == s.threads[u]
    requires TakePending(s, p)
    requires th < |s.threads| && s.threads[th].Cancelling? && Frame(p, Take) in s.threads[th].frames ==>
      TakePending(s', p)
    ensures TakePending(s', p)
  {
    var u :| 0 <= u < |s.threads| && s.threads[u].Cancelling? && Frame(p, Take) in s.threads[u].frames;
    if u != th { assert s'.threads[u] == s.threads[u]; }
  }

  /** What a step of `cancel` does to the other frames of its stack: nothing. */
  lemma OtherFramesStay(s: State, th: nat, g: Frame)
    requires Enabled(s, CancelStep(th)) && g in s.threads[th].frames
    ensures g == Top(s.threads[th].frames) ||
      (Apply(s, CancelStep(th)).threads[th].Cancelling? && g in Apply(s, CancelStep(th)).threads[th].frames)
  {
    var frames := s.threads[th].frames;
    var i :| 0 <= i < |frames| && frames[i] == g;
    if i < |frames| - 1 {
      assert Below(frames)[i] == g;
      assert g in Below(frames);
    }
  }

  /** Swapping the flag of `t`: its children are now found by the thread that takes its list. */
  lemma SwapTracked(s: State, th: nat, c: nat)
    requires Structure(s) && Enabled(s, CancelStep(th)) && c < |s.tokens| && Tracked(s, c)
    requires Top(s.threads[th].frames).pc.Swap?
    ensures Tracked(Apply(s, CancelStep(th)), c)
  {
    var s' := Apply(s, CancelStep(th));
    var f := Top(s.threads[th].frames);
    if s'.tokens[c].alive && !s'.tokens[c].flag && s.tokens[c].parent.Some? {
      var p := s.tokens[c].parent.value;
      if Reached(s, p, c) {
        if Reaches(s.threads[th], p, c) { StackReaches(s, th, p, c); }
        StillReached(s, s', th, p, c);
      } else if s.tokens[p].flag {
        if Frame(p, Take) in s.threads[th].frames { OtherFramesStay(s, th, Frame(p, Take)); }
        StillPending(s, s', th, p);
      } else if s'.tokens[p].flag {
        assert Frame(p, Take) in s'.threads[th].frames;
      }
    }
  }

  /** The stack of a thread keeps reaching `c`, unless `c` was reached by its top frame. */
  lemma StackReaches(s: State, th: nat, p: nat, c: nat)
    requires Enabled(s, CancelStep(th)) && Reaches(s.threads[th], p, c)
    requires var f := Top(s.threads[th].frames); f != Frame(c, Swap) && !(f.token == p && f.pc.Visit? && c in f.pc.rest)
    ensures Reached(Apply(s, CancelStep(th)), p, c)
  {
    var s' := Apply(s, CancelStep(th));
    if Frame(c, Swap) in s.threads[th].frames {
      OtherFramesStay(s, th, Frame(c, Swap));
    } else {
      var g :| g in s.threads[th].frames && g.token == p && g.pc.Visit? && c in g.pc.rest;
      OtherFramesStay(s, th, g);
    }
    assert Reaches(s'.threads[th], p, c);
  }

  /** Taking the list of `t`: every child that was in it is visited. */
  lemma TakeTracked(s: State, th: nat, c: nat)
    requires Structure(s) && Enabled(s, CancelStep(th)) && c < |s.tokens| && Tracked(s, c)
    requires Top(s.threads[th].frames).pc.Take?
    ensures Tracked(Apply(s, CancelStep(th)), c)
  {
    var s' := Apply(s, CancelStep(th));
    var f := Top(s.threads[th].frames);
    if s'.tokens[c].alive && !s'.tokens[c].flag && s.tokens[c].parent.Some? {
      var p := s.tokens[c].parent.value;
      if Reached(s, p, c) {
        if Reaches(s.threads[th], p, c) { StackReaches(s, th, p, c); }
        StillReached(s, s', th, p, c);
      } else if p == f.token {
        var visit := Frame(p, Visit(s.tokens[p].children));
        assert visit in s'.threads[th].frames;
        assert Reaches(s'.threads[th], p, c);
      } else if s.tokens[p].flag {
        if Frame(p, Take) in s.threads[th].frames { OtherFramesStay(s, th, Frame(p, Take)); }
        StillPending(s, s', th, p);
      }
    }
  }

  /** Visiting one child: it is cancelled next if it is alive. */
  lemma VisitTracked(s: State, th: nat, c: nat)
    requires Structure(s) && Enabled(s, CancelStep(th)) && c < |s.tokens| && Tracked(s, c)
    requires Top(s.threads[th].frames).pc.Visit?
    ensures Tracked(Apply(s, CancelStep(th)), c)
  {
    var s' := Apply(s, CancelStep(th));
    var f := Top(s.threads[th].frames);
    if s'.tokens[c].alive && !s'.tokens[c].flag && s.tokens[c].parent.Some? {
      var p := s.tokens[c].parent.value;
      if Reached(s, p, c) {
        if Reaches(s.threads[th], p, c) {
          if f.token == p && c in f.pc.rest { VisitReaches(s, th, p, c); } else { StackReaches(s, th, p, c); }
        }
        StillReached(s, s', th, p, c);
      } else if s.tokens[p].flag {
        if Frame(p, Take) in s.threads[th].frames { OtherFramesStay(s, th, Frame(p, Take)); }
        StillPending(s, s', th, p);
      }
    }
  }

  lemma VisitReaches(s: State, th: nat, p: nat, c: nat)
    requires Enabled(s, CancelStep(th)) && Live(s, c)
    requires var f := Top(s.threads[th].frames); f.token == p && f.pc.Visit? && c in f.pc.rest
    ensures Reached(Apply(s, CancelStep(th)), p, c)
  {
    var s' := Apply(s, CancelStep(th));
    var rest := Top(s.threads[th].frames).pc.rest;
    if rest[0] == c {
      assert Frame(c, Swap) in s'.threads[th].frames;
    } else {
      assert c in rest[1..];
      assert Frame(p, Visit(rest[1..])) in s'.threads[th].frames;
    }
    assert Reaches(s'.threads[th], p, c);
  }

  /** New tokens and calls leave every other child tracked, and track the new one. */
  lemma CallTracked(s: State, step: Step, c: nat)
    requires Structure(s) && Enabled(s, step) && IsCall(step) && c < |Apply(s, step).tokens|
    requires c < |s.tokens| ==> Tracked(s, c)
    ensures Tracked(Apply(s, step), c)
  {
    var s' := Apply(s, step);
    var th := if step.NewRoot? then |s.threads| else step.th;
    if c == |s.tokens| {
      if step.CallChild? { assert Reaches(s'.threads[th], step.token, c); }
    } else if s.tokens[c].alive && !s.tokens[c].flag && s.tokens[c].parent.Some? {
      assert TokenOk(s, c);
      var p := s.tokens[c].parent.value;
      if Reached(s, p, c) { StillReached(s, s', th, p, c); }
      else if s.tokens[p].flag { StillPending(s, s', th, p); }
    }
  }

  /** Locking, checking and pushing: the child being created ends up in the list or cancelled. */
  lemma ListTracked(s: State, step: Step, c: nat)
    requires Structure(s) && Enabled(s, step) && OnList(step) && c < |s.tokens| && Tracked(s, c)
    requires PushOk(s, step.th)
    ensures Tracked(Apply(s, step), c)
  {
    var s' := Apply(s, step);
    assert ThreadOk(s, step.th);
    if s.tokens[c].alive && !s.tokens[c].flag && s.tokens[c].parent.Some? {
      var p := s.tokens[c].parent.value;
      if Reached(s, p, c) && !(step.PushChild? && Reaches(s.threads[step.th], p, c)) {
        if Reaches(s.threads[step.th], p, c) { assert Reaches(s'.threads[step.th], p, c); }
        StillReached(s, s', step.th, p, c);
      } else if s.tokens[p].flag {
        StillPending(s, s', step.th, p);
      }
    }
  }

  lemma DieTracked(s: State, t: nat, c: nat)
    requires Enabled(s, Die(t)) && c < |s.tokens| && Tracked(s, c)
    ensures Tracked(Apply(s, Die(t)), c)
  {
    var s' := Apply(s, Die(t));
    if s'.tokens[c].alive && !s.tokens[c].flag && s.tokens[c].parent.Some? && s.tokens[c].parent.value < |s.tokens| {
      var p := s.tokens[c].parent.value;
      if Reached(s, p, c) { StillReached(s, s', |s.threads|, p, c); }
      else if s.tokens[p].flag { StillPending(s, s', |s.threads|, p); }
    }
  }

  lemma StepTracked(s: State, step: Step, c: nat)
    requires Structure(s) && NothingMissed(s) && Enabled(s, step) && c < |Apply(s, step).tokens|
    ensures Tracked(Apply(s, step), c)
  {
    hide Apply, Tracked, Structure, PushOk;
    SameTokens(s, step);
    if IsCall(step) {
      CallTracked(s, step, c);
    } else if OnList(step) {
      ListTracked(s, step, c);
    } else if step.Die? {
      DieTracked(s, step.token, c);
    } else {
      match Top(s.threads[step.th].frames).pc
      case Swap => SwapTracked(s, step.th, c);
      case Take => TakeTracked(s, step.th, c);
      case Visit(_) => VisitTracked(s, step.th, c);
    }
  }

  lemma SameTokens(s: State, step: Step)
    requires Enabled(s, step)
    ensures !IsCall(step) ==> |Apply(s, step).tokens| == |s.tokens|
    ensures |Apply(s, step).threads| == |s.threads|
  {
  }

  /** The list of a token whose flag was just set is not taken while a child is being pushed. */
  lemma StepPushOk(s: State, step: Step, u: nat)
    requires Structure(s) && NothingMissed(s) && Enabled(s, step) && u < |s.threads|
    ensures PushOk(Apply(s, step), u)
  {
    hide TokenOk, Tracked, FrameOk, Sweep;
    var s' := Apply(s, step);
    assert PushOk(s, u) && ThreadOk(s, u);
    var th := if step.NewRoot? || step.Die? then |s.threads| else step.th;
    if s'.threads[u].Creating? && s'.threads[u].pc.Unflagged? {
      var p := s'.threads[u].parent;
      if s.tokens[p].flag && u != th {
        if th < |s.threads| && s.threads[th].Cancelling? && Frame(p, Take) in s.threads[th].frames {
          OtherFramesStay(s, th, Frame(p, Take));
        }
        StillPending(s, s', th, p);
      } else if s'.tokens[p].flag {
        assert Frame(p, Take) in s'.threads[th].frames;
      }
    }
  }

  // ---- nothing is cancelled without cause: every step ---------------------------------

  lemma {:induction false} StillCaused(s: State, s': State, t: nat)
    requires Extends(s, s') && s.called <= s'.called && Caused(s, t)
    ensures Caused(s', t)
    decreases t
  {
    if t !in s.called {
      StillCaused(s, s', s.tokens[t].parent.value);
      assert s'.tokens[t].parent == s.tokens[t].parent;
    }
  }

  lemma StepExtends(s: State, step: Step)
    requires Enabled(s, step)
    ensures Extends(s, Apply(s, step)) && s.called <= Apply(s, step).called
  {
  }

  /** A child of a cancelled token is cancelled for the same cause. */
  lemma ChildCaused(s: State, p: nat, c: nat)
    requires Structure(s) && c < |s.tokens| && s.tokens[c].parent == Some(p) && Caused(s, p)
    ensures Caused(s, c)
  {
    assert TokenOk(s, c);
  }

  lemma StepFlagsCaused(s: State, step: Step, t: nat)
    requires Structure(s) && Causes(s) && Enabled(s, step)
    requires t < |Apply(s, step).tokens| && Apply(s, step).tokens[t].flag
    ensures Caused(Apply(s, step), t)
  {
    hide Structure, Caused;
    var s' := Apply(s, step);
    StepExtends(s, step);
    if t < |s.tokens| && s.tokens[t].flag {
      StillCaused(s, s', t);
    } else {
      var frames := s.threads[step.th].frames;
      assert Top(frames) in frames && Top(frames).token == t;
      StillCaused(s, s', t);
    }
  }

  lemma StepFramesCaused(s: State, step: Step, u: nat)
    requires Structure(s) && Causes(s) && Enabled(s, step) && u < |s.threads|
    ensures FramesCaused(Apply(s, step), Apply(s, step).threads[u])
  {
    hide Caused, TokenOk;
    var s' := Apply(s, step);
    StepExtends(s, step);
    assert FramesCaused(s, s.threads[u]) && ThreadOk(s, u);
    if s'.threads[u].Cancelling? {
      forall f | f in s'.threads[u].frames ensures Caused(s', f.token) {
        if s.threads[u].Cancelling? && f in s.threads[u].frames {
          StillCaused(s, s', f.token);
        } else {
          NewFrameCaused(s, step, u, f);
          if f.token !in s'.called { StillCaused(s, s', f.token); }
          CalledCaused(s', f.token);
        }
      }
    }
  }

  lemma CalledCaused(s: State, t: nat)
    ensures t in s.called ==> Caused(s, t)
  {
  }

  /** A step of `cancel` starts only on a child of the token of its top frame. */
  lemma VisitCaused(s: State, u: nat, f: Frame)
    requires Structure(s) && Enabled(s, CancelStep(u)) && ThreadOk(s, u) && FramesCaused(s, s.threads[u])
    requires CancelOnce(s, u).threads[u].Cancelling? && f in CancelOnce(s, u).threads[u].frames
    requires f !in s.threads[u].frames
    ensures Caused(s, f.token)
  {
    hide Caused, Structure;
    var frames := s.threads[u].frames;
    var top := Top(frames);
    assert top in frames && FrameOk(s, top) && Caused(s, top.token);
    if f.token != top.token { ChildCaused(s, top.token, f.token); }
  }

  lemma NewFrameCaused(s: State, step: Step, u: nat, f: Frame)
    requires Structure(s) && Causes(s) && Enabled(s, step) && u < |s.threads|
    requires Apply(s, step).threads[u].Cancelling? && f in Apply(s, step).threads[u].frames
    requires !(s.threads[u].Cancelling? && f in s.threads[u].frames)
    ensures f.token in Apply(s, step).called || Caused(s, f.token)
  {
    hide Caused, TokenOk;
    assert ThreadOk(s, u) && FramesCaused(s, s.threads[u]);
    if step.CancelStep? {
      assert step.th == u;
      VisitCaused(s, u, f);
    } else if step.CheckFlag? {
      ChildCaused(s, s.threads[u].parent, s.threads[u].child);
    }
  }

  lemma StepInv(s: State, step: Step)
    requires Inv(s) && Enabled(s, step)
    ensures Inv(Apply(s, step))
  {
    hide Apply, Tracked, PushOk, Caused, FramesCaused, TokenOk, ThreadOk, Enabled;
    var s' := Apply(s, step);
    SameTokens(s, step);
    if IsCall(step) { CallStructure(s, step); }
    else if OnList(step) { ListStructure(s, step); }
    else if step.Die? { DieStructure(s, step.token); }
    else { CancelStructure(s, step.th); }
    forall c | 0 <= c < |s'.tokens| ensures Tracked(s', c) { StepTracked(s, step, c); }
    forall u | 0 <= u < |s'.threads| ensures PushOk(s', u) && FramesCaused(s', s'.threads[u]) {
      StepPushOk(s, step, u);
      StepFramesCaused(s, step, u);
    }
    forall t | 0 <= t < |s'.tokens| && s'.tokens[t].flag ensures Caused(s', t) { StepFlagsCaused(s, step, t); }
  }

  lemma {:induction false} RunKeeps(s: State, steps: seq<Step>, s': State)
    requires Inv(s) && RunsTo(s, steps, s')
    ensures Inv(s')
    decreases |steps|
  {
    hide Inv;
    if steps != [] {
      StepInv(s, steps[0]);
      RunKeeps(Apply(s, steps[0]), steps[1..], s');
    }
  }

  lemma ReachableInv(s: State)
    requires Reachable(s)
    ensures Inv(s)
  {
    var threads: nat, steps :| RunsTo(Init(threads), steps, s);
    InitInv(threads);
    RunKeeps(Init(threads), steps, s);
  }

  lemma InitInv(threads: nat)
    ensures Inv(Init(threads))
  {
    var s := Init(threads);
    forall th | 0 <= th < |s.threads| ensures ThreadOk(s, th) && PushOk(s, th) && FramesCaused(s, s.threads[th]) {
      assert s.threads[th] == Idle;
    }
  }

  // ---- the theorems ---------------------------------------------------------------------

  function ParentsOf(tokens: seq<Token>): (r: F.Parents)
    ensures |r| == |tokens| && forall t :: 0 <= t < |r| ==> r[t] == tokens[t].parent
  {
    seq(|tokens|, t requires 0 <= t < |tokens| => tokens[t].parent)
  }

  /** `a` is `t` or one of its ancestors. */
  ghost predicate Above(s: State, a: nat, t: nat) {
    F.Above(ParentsOf(s.tokens), a, t)
  }

  /**
   Concurrent cancel misses no child: once no call is in progress, every
   live descendant of a cancelled token is cancelled, also through tokens
   whose own handles are gone.
   */
  lemma {:induction false} CancelMissesNobody(s: State, a: nat, t: nat)
    requires Reachable(s) && (forall th :: 0 <= th < |s.threads| ==> s.threads[th].Idle?)
    requires Live(s, t) && Above(s, a, t) && a < |s.tokens| && s.tokens[a].flag
    ensures s.tokens[t].flag
    decreases t
  {
    if a != t {
      ReachableInv(s);
      assert TokenOk(s, t) && Tracked(s, t);
      CancelMissesNobody(s, a, s.tokens[t].parent.value);
    }
  }

  /** A token is cancelled only if `cancel` was called on it or on an ancestor. */
  lemma CancelledForCause(s: State, t: nat)
    requires Reachable(s) && t < |s.tokens| && s.tokens[t].flag
    ensures exists a :: a in s.called && Above(s, a, t)
  {
    ReachableInv(s);
    CauseAbove(s, t);
  }

  lemma {:induction false} CauseAbove(s: State, t: nat)
    requires Caused(s, t)
    ensures exists a :: a in s.called && Above(s, a, t)
    decreases t
  {
    if t in s.called {
      assert Above(s, t, t);
    } else {
      var p := s.tokens[t].parent.value;
      CauseAbove(s, p);
      var a :| a in s.called && Above(s, a, p);
      assert Above(s, a, t);
    }
  }

  /** A call of `cancel` that returned has cancelled its token, whoever set the flag. */
  lemma CalledIsCancelled(s: State, t: nat)
    requires Reachable(s) && t in s.called && (forall th :: 0 <= th < |s.threads| ==> s.threads[th].Idle?)
    ensures t < |s.tokens| && s.tokens[t].flag
  {
    var threads: nat, steps :| RunsTo(Init(threads), steps, s);
    assert CallsOk(Init(threads));
    CallsRun(Init(threads), steps, s);
  }

  /** A called token is cancelled, or about to be. */
  ghost predicate CallsOk(s: State) {
    forall t :: t in s.called ==> t < |s.tokens| && (s.tokens[t].flag || Swapping(s, t))
  }

  ghost predicate Swapping(s: State, t: nat) {
    exists th :: 0 <= th < |s.threads| && s.threads[th].Cancelling? && Frame(t, Swap) in s.threads[th].frames
  }

  lemma StepCalls(s: State, step: Step)
    requires CallsOk(s) && Enabled(s, step)
    ensures CallsOk(Apply(s, step))
  {
    var s' := Apply(s, step);
    forall t | t in s'.called ensures t < |s'.tokens| && (s'.tokens[t].flag || Swapping(s', t)) {
      if t !in s.called {
        assert Frame(t, Swap) in s'.threads[step.th].frames;
      } else if !s'.tokens[t].flag {
        var th :| 0 <= th < |s.threads| && s.threads[th].Cancelling? && Frame(t, Swap) in s.threads[th].frames;
        if step == CancelStep(th) { OtherFramesStay(s, th, Frame(t, Swap)); }
        assert Frame(t, Swap) in s'.threads[th].frames;
      }
    }
  }

  lemma {:induction false} CallsRun(s: State, steps: seq<Step>, s': State)
    requires CallsOk(s) && RunsTo(s, steps, s')
    ensures CallsOk(s')
    decreases |steps|
  {
    hide CallsOk, Apply, Enabled;
    if steps != [] {
      StepCalls(s, steps[0]);
      CallsRun(Apply(s, steps[0]), steps[1..], s');
    }
  }
}
