/**
 Scopes as the program runs them: objects whose phase, deadline and child
 list change in place.  `Tree` lists them (ghost) with the abstract state
 `s`; each method is proved to take the step of `Scopes` that it stands for.
 */
module ScopeObjects {
  import opened Basics
  import S = Scopes
  import F = Forest
  import opened CancelTokens

  /** What a spawned task shares with its scope and its handle. */
  class TaskState {
    ghost const id: nat
    const token: CancelToken
    var done: bool

    constructor (ghost id: nat, token: CancelToken)
      ensures this.id == id && this.token == token && !done
    {
      this.id, this.token, done := id, token, false;
    }
  }

  class Tree {
    var now: nat
    ghost var s: S.State
    ghost var scopes: seq<Scope>
    ghost var tasks: seq<TaskState>
    ghost var tokens: seq<CancelToken>

    ghost predicate Has(c: Scope)
      reads this`scopes
    {
      c.id < |scopes| && scopes[c.id] == c
    }

    ghost predicate HasTask(t: TaskState)
      reads this`tasks
    {
      t.id < |tasks| && tasks[t.id] == t
    }

    ghost predicate TasksAre(objects: seq<TaskState>, ids: seq<nat>)
      reads this`tasks
    {
      && |objects| == |ids|
      && forall k {:trigger objects[k]} {:trigger ids[k]} :: 0 <= k < |ids| ==>
           ids[k] < |tasks| && tasks[ids[k]] == objects[k]
    }

    ghost predicate ScopeIs(c: Scope, rec: S.Scope)
      reads this`scopes, this`tasks, c
    {
      && (if c.parent == null then rec.parent.None?
          else rec.parent == Some(c.parent.id) && Has(c.parent) && c.parent.id < c.id)
      && c.grace == rec.grace && c.phase == rec.phase && c.deadline == rec.deadline
      && TasksAre(c.children, rec.children)
      && HasTask(c.task) && c.task.id == c.id
    }

    ghost predicate ScopesValid(recs: seq<S.Scope>)
      reads this`scopes, this`tasks, scopes
    {
      && |scopes| == |recs|
      && forall i {:trigger scopes[i]} :: 0 <= i < |scopes| ==> scopes[i].id == i && ScopeIs(scopes[i], recs[i])
    }

    ghost predicate TasksValid(recs: seq<S.Scope>)
      reads this`tasks, this`tokens, tasks
    {
      && |tasks| == |tokens| == |recs|
      && forall i {:trigger tasks[i]} :: 0 <= i < |tasks| ==>
           tasks[i].id == i && tasks[i].token == tokens[i] && tasks[i].done == recs[i].phase.Closed?
    }

    ghost predicate TokensValid(recs: seq<S.Scope>)
      reads this`tokens, tokens
    {
      && Wired(tokens, S.ParentsOf(recs))
      && forall i {:trigger tokens[i]} :: 0 <= i < |tokens| ==> tokens[i].flag == recs[i].cancelled
    }

    /** The objects agree with the abstract state. */
    ghost predicate Linked()
      reads this, scopes, tasks, tokens
    {
      now == s.now && ScopesValid(s.scopes) && TasksValid(s.scopes) && TokensValid(s.scopes)
    }

    ghost predicate Valid()
      reads this, scopes, tasks, tokens
    {
      Linked() && S.Inv(s)
    }

    /** Cancel `token` and every token below it. */
    method CancelToken(token: CancelToken, ghost id: nat)
      requires Linked() && id < |tokens| && tokens[id] == token && FlagsClosed(tokens, S.ParentsOf(s.scopes))
      modifies tokens, this`s
      ensures Linked() && FlagsClosed(tokens, S.ParentsOf(s.scopes))
      ensures s == old(s).(scopes := S.CancelBelow(old(s).scopes, {id}))
    {
      hide ScopesValid, TasksValid, TokensValid, S.CancelBelow, S.Above, S.ParentsOf, Wired, FlagsClosed;
      TokenFlags(this);
      ghost var before := Flags(tokens);
      SetFlags(token, id);
      Cancelled(this, before, id);
      s := s.(scopes := S.CancelBelow(s.scopes, {id}));
    }

    /** The handle of a task is dropped: the task is cancelled unless it was detached or is done. */
    method DropHandle(task: TaskState, detached: bool)
      requires Valid() && HasTask(task)
      modifies tokens, this`s
      ensures Valid() && task.id < |old(s).scopes| && S.Enabled(old(s), S.Cancel(task.id))
      ensures s == if detached || S.Done(old(s), task.id) then old(s) else S.Apply(old(s), S.Cancel(task.id))
    {
      assert TasksValid(s.scopes) && tasks[task.id] == task;
      if !detached && !task.done {
        InvFlags(this);
        S.StepInv(s, S.Cancel(task.id));
        hide Linked, S.Inv;
        CancelToken(task.token, task.id);
      }
    }

    method SetFlags(token: CancelToken, ghost id: nat)
      requires Wired(tokens, S.ParentsOf(s.scopes)) && id < |tokens| && tokens[id] == token &&
        FlagsClosed(tokens, S.ParentsOf(s.scopes))
      modifies tokens
      ensures Wired(tokens, S.ParentsOf(s.scopes)) && FlagsClosed(tokens, S.ParentsOf(s.scopes))
      ensures forall u: nat :: u < |tokens| ==> tokens[u].flag == (old(Flags(tokens))[u] || S.Above(s.scopes, id, u))
    {
      Sizes(tokens, S.ParentsOf(s.scopes));
      hide S.Above, Wired, FlagsClosed, FlagsBelow, WereClosed;
      ghost var before := Flags(tokens);
      ReadClosed(tokens, S.ParentsOf(s.scopes));
      ClosedBelow(tokens, S.ParentsOf(s.scopes), id);
      token.Cancel(tokens, S.ParentsOf(s.scopes));
      StillClosed(tokens, S.ParentsOf(s.scopes), before, id);
    }

    /** The objects agree with the abstract state, but for a child token that has no scope yet. */
    ghost predicate LinkedWith(token: CancelToken, rec: S.Scope)
      reads this, scopes, tasks, tokens, token
    {
      && now == s.now && ScopesValid(s.scopes) && TasksValid(s.scopes)
      && Wired(tokens + [token], S.ParentsOf(s.scopes + [rec]))
      && forall i {:trigger tokens[i]} :: 0 <= i < |tokens| ==> tokens[i].flag == s.scopes[i].cancelled
    }

    /** A new scope with its task and token. */
    ghost method Register(token: CancelToken, task: TaskState, scope: Scope, rec: S.Scope)
      requires LinkedWith(token, rec) && FlagsClosed(tokens, S.ParentsOf(s.scopes)) && token.flag == rec.cancelled
      requires task.id == |s.scopes| && task.token == token && !task.done && !rec.phase.Closed?
      requires scope.id == |s.scopes| && scope.task == task && scope.parent != null && Has(scope.parent)
      requires rec.parent == Some(scope.parent.id) && scope.parent.id < |s.scopes|
      requires (s.scopes[scope.parent.id].cancelled ==> rec.cancelled)
      requires scope.grace == rec.grace && scope.phase == rec.phase && scope.deadline == rec.deadline
      requires scope.children == [] && rec.children == []
      modifies this`s, this`scopes, this`tasks, this`tokens
      ensures Linked() && FlagsClosed(tokens, S.ParentsOf(s.scopes))
      ensures tokens == old(tokens) + [token] && tasks == old(tasks) + [task] && scopes == old(scopes) + [scope]
      ensures s == old(s).(scopes := old(s).scopes + [rec])
    {
      hide ScopesValid, TasksValid, Wired;
      ghost var recs := s.scopes;
      GrowTasks(token, task, recs, rec);
      GrowScopes(scope, recs, rec);
      s := s.(scopes := recs + [rec]);
    }

    ghost method GrowTasks(token: CancelToken, task: TaskState, recs: seq<S.Scope>, rec: S.Scope)
      requires ScopesValid(recs) && TasksValid(recs)
      requires task.id == |recs| && task.token == token && !task.done && !rec.phase.Closed?
      modifies this`tasks, this`tokens
      ensures ScopesValid(recs) && TasksValid(recs + [rec])
      ensures tokens == old(tokens) + [token] && tasks == old(tasks) + [task]
    {
      tokens := tokens + [token];
      tasks := tasks + [task];
    }

    ghost method GrowScopes(scope: Scope, recs: seq<S.Scope>, rec: S.Scope)
      requires ScopesValid(recs) && scope.id == |recs| && HasTask(scope.task) && scope.task.id == scope.id
      requires scope.parent != null && Has(scope.parent) && rec.parent == Some(scope.parent.id)
      requires scope.parent.id < |recs|
      requires scope.grace == rec.grace && scope.phase == rec.phase && scope.deadline == rec.deadline
      requires scope.children == [] && rec.children == []
      modifies this`scopes
      ensures ScopesValid(recs + [rec]) && scopes == old(scopes) + [scope]
    {
      hide TasksAre;
      GrowLists(this, scope, rec);
      scopes := scopes + [scope];
    }

    /** Time passes. */
    method Tick()
      requires Valid()
      modifies this`now, this`s
      ensures Valid() && s == S.Apply(old(s), S.Tick)
    {
      hide ScopesValid, TasksValid, TokensValid, S.Inv;
      S.StepInv(s, S.Tick);
      now := now + 1;
      s := S.Apply(s, S.Tick);
    }
  }

  lemma GrowLists(t: Tree, scope: Scope, rec: S.Scope)
    ensures scope.children == [] && rec.children == [] ==> t.TasksAre(scope.children, rec.children)
  {
  }

  lemma LinkedParts(t: Tree)
    ensures t.Linked() <==>
      t.now == t.s.now && t.ScopesValid(t.s.scopes) && t.TasksValid(t.s.scopes) && t.TokensValid(t.s.scopes)
  {
  }

  lemma LinkedTokens(t: Tree)
    requires t.Linked()
    ensures Wired(t.tokens, S.ParentsOf(t.s.scopes)) && t.TokensValid(t.s.scopes) && |t.tokens| == |t.s.scopes|
  {
  }

  lemma TokenFlags(t: Tree)
    requires t.TokensValid(t.s.scopes)
    ensures Wired(t.tokens, S.ParentsOf(t.s.scopes)) && |t.tokens| == |t.s.scopes|
    ensures forall u: nat :: u < |t.tokens| ==> Flags(t.tokens)[u] == t.s.scopes[u].cancelled
  {
  }

  /** Once the flags below `id` are set, the objects agree with the cancelled state. */
  lemma Cancelled(t: Tree, before: seq<bool>, id: nat)
    requires t.ScopesValid(t.s.scopes) && t.TasksValid(t.s.scopes) && Wired(t.tokens, S.ParentsOf(t.s.scopes))
    requires |before| == |t.tokens| && FlagsClosed(t.tokens, S.ParentsOf(t.s.scopes))
    requires forall u: nat :: u < |before| ==> before[u] == t.s.scopes[u].cancelled
    requires forall u: nat :: u < |t.tokens| ==> t.tokens[u].flag == (before[u] || S.Above(t.s.scopes, id, u))
    ensures var recs := S.CancelBelow(t.s.scopes, {id});
      t.ScopesValid(recs) && t.TasksValid(recs) && t.TokensValid(recs) && FlagsClosed(t.tokens, S.ParentsOf(recs))
  {
  }

  lemma ScopeAt(t: Tree, c: Scope)
    requires t.Linked() && t.Has(c)
    ensures c.id < |t.s.scopes| == |t.scopes| == |t.tasks| == |t.tokens| && t.ScopeIs(c, t.s.scopes[c.id])
    ensures |c.children| == |t.s.scopes[c.id].children|
    ensures t.tasks[c.id] == c.task && c.task.token == t.tokens[c.id]
    ensures c.task.token.flag == t.s.scopes[c.id].cancelled && t.now == t.s.now
  {
  }

  lemma TaskAt(t: Tree, c: Scope, k: nat)
    requires t.Linked() && t.Has(c) && k < |c.children|
    ensures c.id < |t.s.scopes| && k < |t.s.scopes[c.id].children|
    ensures var id := t.s.scopes[c.id].children[k];
      && id < |t.s.scopes| && id < |t.tokens| && c.children[k].id == id && t.HasTask(c.children[k])
      && c.children[k].token == t.tokens[id] && c.children[k].done == S.Done(t.s, id)
  {
    hide Tree.TokensValid;
    ScopeAt(t, c);
    assert t.tasks[t.s.scopes[c.id].children[k]] == c.children[k];
  }

  /** What is left of the walk up the tree from `next`. */
  ghost function Walk(recs: seq<S.Scope>, next: Option<nat>): Option<nat> {
    if next.None? || next.value >= |recs| then None
    else S.Earlier(recs[next.value].deadline, S.AncestorsDeadline(recs, next.value))
  }

  lemma WalkStart(recs: seq<S.Scope>, u: nat)
    requires u < |recs| && (recs[u].parent.Some? ==> recs[u].parent.value < u)
    ensures S.AncestorsDeadline(recs, u) == S.Earlier(None, Walk(recs, recs[u].parent))
  {
  }

  lemma WalkStep(recs: seq<S.Scope>, u: nat, earliest: Option<nat>)
    requires u < |recs| && (recs[u].parent.Some? ==> recs[u].parent.value < u)
    ensures S.Earlier(earliest, Walk(recs, Some(u)))
         == S.Earlier(S.Earlier(earliest, recs[u].deadline), Walk(recs, recs[u].parent))
  {
    WalkStart(recs, u);
  }

  lemma TasksFrame(t: Tree, recs: seq<S.Scope>, recs': seq<S.Scope>)
    requires t.TasksValid(recs) && |recs'| == |recs|
    requires forall i :: 0 <= i < |recs| ==> recs'[i].phase.Closed? == recs[i].phase.Closed?
    ensures t.TasksValid(recs')
  {
  }

  lemma TokensFrame(t: Tree, recs: seq<S.Scope>, recs': seq<S.Scope>)
    requires t.TokensValid(recs) && |recs'| == |recs|
    requires forall i :: 0 <= i < |recs| ==>
      recs'[i].parent == recs[i].parent && recs'[i].cancelled == recs[i].cancelled
    ensures t.TokensValid(recs')
  {
  }

  class Scope {
    ghost const id: nat
    const parent: Scope?
    const grace: nat
    const task: TaskState
    var phase: S.Phase
    var deadline: Option<nat>
    var children: seq<TaskState>

    constructor (ghost id: nat, parent: Scope?, grace: nat, task: TaskState)
      ensures this.id == id && this.parent == parent && this.grace == grace && this.task == task
      ensures phase == S.Running && deadline == None && children == []
    {
      this.id, this.parent, this.grace, this.task := id, parent, grace, task;
      phase, deadline, children := S.Running, None, [];
    }

    /** Walk up the parents for the least deadline that any of them has (`ancestors_deadline`). */
    method AncestorsDeadline(t: Tree) returns (earliest: Option<nat>)
      requires t.Linked() && t.Has(this)
      ensures id < |t.s.scopes| && earliest == S.AncestorsDeadline(t.s.scopes, id)
    {
      hide Tree.Linked, S.AncestorsDeadline, Tree.TasksAre;
      ghost var recs := t.s.scopes;
      ScopeAt(t, this);
      WalkStart(recs, id);
      earliest := None;
      var next := parent;
      while next != null
        invariant next != null ==> t.Has(next) && next.id < |recs|
        invariant S.AncestorsDeadline(recs, id) ==
          S.Earlier(earliest, Walk(recs, if next == null then None else Some(next.id)))
        decreases if next == null then 0 else next.id + 1
      {
        ScopeAt(t, next);
        WalkStep(recs, next.id, earliest);
        if next.deadline.Some? {
          earliest := if earliest.None? || next.deadline.value < earliest.value then next.deadline else earliest;
        }
        next := next.parent;
      }
    }

    /** Take a deadline: the grace from now, clamped to the ancestors. */
    method TakeDeadline(t: Tree)
      requires t.Linked() && t.Has(this) && deadline.None?
      modifies this`deadline, t`s
      ensures t.Linked() && id < |old(t.s).scopes|
      ensures t.s == old(t.s).(scopes := old(t.s).scopes[id := S.WithDeadline(old(t.s), id)])
    {
      hide Tree.Linked, Tree.TasksAre, S.AncestorsDeadline;
      ScopeAt(t, this);
      var own := t.now + grace;
      var ancestors := AncestorsDeadline(t);
      SetDeadline(t, if ancestors.Some? && ancestors.value < own then ancestors.value else own);
    }

    method SetDeadline(t: Tree, d: nat)
      requires t.Linked() && t.Has(this)
      modifies this`deadline, t`s
      ensures t.Linked() && id < |old(t.s).scopes|
      ensures t.s == old(t.s).(scopes := old(t.s).scopes[id := old(t.s).scopes[id].(deadline := Some(d))])
    {
      hide Tree.TasksAre, Tree.TasksValid, Tree.TokensValid;
      ScopeAt(t, this);
      ghost var recs := t.s.scopes[id := t.s.scopes[id].(deadline := Some(d))];
      TasksFrame(t, t.s.scopes, recs);
      TokensFrame(t, t.s.scopes, recs);
      deadline := Some(d);
      t.s := t.s.(scopes := recs);
    }

    method SetPhase(t: Tree, next: S.Phase)
      requires t.Linked() && t.Has(this) && (next.Closed? <==> phase.Closed?)
      modifies this`phase, t`s
      ensures t.Linked() && id < |old(t.s).scopes|
      ensures t.s == old(t.s).(scopes := old(t.s).scopes[id := old(t.s).scopes[id].(phase := next)])
    {
      hide Tree.TasksAre, Tree.TasksValid, Tree.TokensValid;
      ScopeAt(t, this);
      ghost var recs := t.s.scopes[id := t.s.scopes[id].(phase := next)];
      TasksFrame(t, t.s.scopes, recs);
      TokensFrame(t, t.s.scopes, recs);
      phase := next;
      t.s := t.s.(scopes := recs);
    }

    /** Cancel the tokens of every task in the list (`cancel_all`). */
    method CancelAll(t: Tree)
      requires t.Linked() && t.Has(this) && FlagsClosed(t.tokens, S.ParentsOf(t.s.scopes))
      modifies t.tokens, t`s
      ensures t.Linked() && id < |old(t.s).scopes|
      ensures t.s == old(t.s).(scopes :=
        S.CancelBelow(old(t.s).scopes, S.Members(old(t.s).scopes[id].children)))
    {
      hide Tree.Linked, Wired, FlagsClosed, S.CancelBelow;
      ScopeAt(t, this);
      ghost var s0, ids := t.s, t.s.scopes[id].children;
      CancelNone(s0.scopes);
      var k := 0;
      while k < |children|
        invariant k <= |children| == |ids| && t.Linked() && FlagsClosed(t.tokens, S.ParentsOf(t.s.scopes))
        invariant t.s == s0.(scopes := S.CancelBelow(s0.scopes, S.Members(ids[..k])))
      {
        TaskAt(t, this, k);
        CancelMore(s0.scopes, ids, k);
        SameChildren(s0.scopes, S.Members(ids[..k]), id);
        t.CancelToken(children[k].token, ids[k]);
        k := k + 1;
      }
      assert ids[..k] == ids;
    }

    /** The body saw its cancel: take the deadline (`with_grace`). */
    method ObserveCancel(t: Tree)
      requires t.Valid() && t.Has(this) && phase.Running? && task.token.flag && deadline.None?
      modifies this`deadline, t`s
      ensures t.Valid() && S.Enabled(old(t.s), S.Observe(id)) && t.s == S.Apply(old(t.s), S.Observe(id))
    {
      hide Tree.Linked, S.Inv, S.AncestorsDeadline, S.Unfinished, S.CancelBelow;
      ScopeAt(t, this);
      S.StepInv(t.s, S.Observe(id));
      TakeDeadline(t);
    }

    /** The body ended: take a deadline if there is none, drain, and cancel the tasks (`run_in`). */
    method EndBody(t: Tree)
      requires t.Valid() && t.Has(this) && phase.Running?
      modifies this`deadline, this`phase, t.tokens, t`s
      ensures t.Valid() && S.Enabled(old(t.s), S.EndBody(id)) && t.s == S.Apply(old(t.s), S.EndBody(id))
    {
      InvFlags(t);
      hide Tree.Linked, S.Inv, S.Apply, S.WithDeadline, S.CancelBelow, FlagsClosed;
      ScopeAt(t, this);
      S.StepInv(t.s, S.EndBody(id));
      EndBodyIs(t.s, id);
      DrainFlags(t, id);
      StartDraining(t);
      CancelAll(t);
    }

    /** Take a deadline if there is none, and drain. */
    method StartDraining(t: Tree)
      requires t.Linked() && t.Has(this) && phase.Running?
      modifies this`deadline, this`phase, t`s
      ensures t.Linked() && id < |old(t.s).scopes|
      ensures t.s == old(t.s).(scopes := old(t.s).scopes[id := S.WithDeadline(old(t.s), id).(phase := S.Draining)])
    {
      hide Tree.Linked, S.NewDeadline;
      ScopeAt(t, this);
      ghost var recs := t.s.scopes;
      if deadline.None? { TakeDeadline(t); }
      SetPhase(t, S.Draining);
      assert t.s.scopes == recs[id := S.WithDeadline(old(t.s), id).(phase := S.Draining)];
    }

    /** The first `k` tasks of the list are done. */
    ghost predicate AllDone(k: nat)
      reads this, children
    {
      k <= |children| && forall j :: 0 <= j < k ==> children[j].done
    }

    /** The first task of the list that is not done: what `wait_all` waits for next. */
    method NextUnfinished(t: Tree) returns (next: Option<TaskState>)
      requires t.Linked() && t.Has(this)
      ensures id < |t.s.scopes|
      ensures next.None? <==> forall c :: c in t.s.scopes[id].children ==> S.Done(t.s, c)
      ensures next.Some? ==>
        !next.value.done && exists k: nat :: AllDone(k) && k < |children| && children[k] == next.value
    {
      hide Tree.Linked;
      ScopeAt(t, this);
      ghost var ids := t.s.scopes[id].children;
      var k := 0;
      while k < |children|
        invariant k <= |children| == |ids|
        invariant AllDone(k) && forall j :: 0 <= j < k ==> S.Done(t.s, ids[j])
      {
        TaskAt(t, this, k);
        if !children[k].done {
          assert ids[k] in ids;
          return Some(children[k]);
        }
        k := k + 1;
      }
      return None;
    }

    /** Nothing is left to wait for: the scope is closed and its task done. */
    method Close(t: Tree)
      requires t.Valid() && t.Has(this) && S.Enabled(t.s, S.Close(id))
      modifies this`phase, task`done, t`s
      ensures t.Valid() && t.s == S.Apply(old(t.s), S.Close(id)) && task.done
    {
      hide Tree.Linked, S.Inv;
      ScopeAt(t, this);
      S.StepInv(t.s, S.Close(id));
      MarkClosed(t);
    }

    method MarkClosed(t: Tree)
      requires t.Linked() && t.Has(this)
      modifies this`phase, task`done, t`s
      ensures t.Linked() && id < |old(t.s).scopes| && task.done
      ensures t.s == old(t.s).(scopes := old(t.s).scopes[id := old(t.s).scopes[id].(phase := S.Closed)])
    {
      hide *;
      ScopeAt(t, this);
      LinkedParts(t);
      ghost var recs := t.s.scopes;
      EnterClosed(t, recs);
      FinishTask(t, recs);
      t.s := t.s.(scopes := recs[id := recs[id].(phase := S.Closed)]);
      LinkedParts(t);
    }

    method EnterClosed(t: Tree, ghost recs: seq<S.Scope>)
      requires t.ScopesValid(recs) && t.TasksValid(recs) && t.TokensValid(recs) && id < |recs| && t.Has(this)
      modifies this`phase
      ensures var closed := recs[id := recs[id].(phase := S.Closed)];
        t.ScopesValid(closed) && t.TasksValid(recs) && t.TokensValid(closed)
    {
      TokensFrame(t, recs, recs[id := recs[id].(phase := S.Closed)]);
      hide Tree.TasksAre, Tree.TokensValid, Tree.TasksValid;
      phase := S.Closed;
    }

    /** Mark this scope's task done (`finish`). */
    method FinishTask(t: Tree, ghost recs: seq<S.Scope>)
      requires t.TasksValid(recs) && id < |recs| && id < |t.tasks| && t.tasks[id] == task
      requires var closed := recs[id := recs[id].(phase := S.Closed)];
        t.ScopesValid(closed) && t.TokensValid(closed)
      modifies task`done
      ensures var closed := recs[id := recs[id].(phase := S.Closed)];
        t.ScopesValid(closed) && t.TasksValid(closed) && t.TokensValid(closed) && task.done
    {
      hide Tree.ScopesValid, Tree.TokensValid;
      task.done := true;
    }

    /** Add a task to the list, dropping finished ones; on a draining scope the task is cancelled (`add`). */
    method Add(t: Tree, child: TaskState)
      requires t.Linked() && t.Has(this) && t.HasTask(child) && FlagsClosed(t.tokens, S.ParentsOf(t.s.scopes))
      requires child.id < |t.tokens| && t.tokens[child.id] == child.token
      modifies this`children, t.tokens, t`s
      ensures t.Linked() && id < |old(t.s).scopes|
      ensures var scopes := if phase.Draining? then S.CancelBelow(old(t.s).scopes, {child.id}) else old(t.s).scopes;
        t.s == old(t.s).(scopes := scopes[id := scopes[id].(
          children := S.Unfinished(old(t.s), scopes[id].children) + [child.id])])
    {
      hide Tree.Linked, S.Unfinished, S.CancelBelow, FlagsClosed;
      ScopeAt(t, this);
      ghost var s0 := t.s;
      if phase.Draining? {
        SameLists(s0, {child.id});
        t.CancelToken(child.token, child.id);
      }
      ScopeAt(t, this);
      SameUnfinished(s0, t.s, t.s.scopes[id].children);
      Retain(t);
      Push(t, child);
    }

    /** Spawn a task here: it gets a scope whose parent is this one (`spawn`). */
    method Spawn(t: Tree, grace: nat) returns (state: TaskState)
      requires t.Valid() && t.Has(this)
      modifies this`children, t, t.tokens
      ensures t.Valid() && id < |old(t.s).scopes| && t.s == S.Apply(old(t.s), S.Spawn(id, grace))
      ensures state.done <==> S.OutOfTime(old(t.s), id)
      ensures state.done <==> old(phase.Closed? || (phase.Draining? && deadline.Some? && deadline.value <= t.now))
      ensures state.done ==> state.token.flag
      ensures !state.done ==> state.id == |old(t.s).scopes| && t.HasTask(state)
    {
      InvFlags(t);
      hide Tree.Linked, S.Inv, S.Apply, Spawned, FlagsClosed;
      ScopeAt(t, this);
      S.StepInv(t.s, S.Spawn(id, grace));
      SpawnRefused(t.s, id, grace);
      var outOfTime := phase.Closed? || (phase.Draining? && deadline.Some? && deadline.value <= t.now);
      if outOfTime {
        state := Refused();
        return;
      }
      SpawnInSteps(t.s, id, grace);
      state := Start(t, grace);
    }

    /** A task with its scope, added to this one. */
    method Start(t: Tree, grace: nat) returns (state: TaskState)
      requires t.Linked() && t.Has(this) && FlagsClosed(t.tokens, S.ParentsOf(t.s.scopes))
      modifies this`children, t, t.tokens
      ensures t.Linked() && id < |old(t.s).scopes| && t.s == Spawned(old(t.s), id, grace)
      ensures !state.done && state.id == |old(t.s).scopes| && t.HasTask(state)
    {
      hide Tree.Linked, S.CancelBelow, S.Unfinished, FlagsClosed;
      ScopeAt(t, this);
      state := NewTask(t, grace);
      Add(t, state);
    }

    /** A task that was never started: finished as cancelled. */
    method Refused() returns (state: TaskState)
      ensures fresh(state) && state.done && state.token.flag
    {
      var token := new CancelToken(0);
      token.flag := true;
      state := new TaskState(0, token);
      state.done := true;
    }

    /** The shared state of a new task, its token a child of this scope's, and its scope. */
    method NewTask(t: Tree, grace: nat) returns (state: TaskState)
      requires t.Linked() && t.Has(this) && FlagsClosed(t.tokens, S.ParentsOf(t.s.scopes))
      modifies task.token`children, t`s, t`tokens, t`tasks, t`scopes
      ensures t.Linked() && t.Has(this) && FlagsClosed(t.tokens, S.ParentsOf(t.s.scopes))
      ensures id < |old(t.s).scopes| && t.s == WithChild(old(t.s), id, grace)
      ensures t.tokens == old(t.tokens) + [state.token] && fresh(state.token) && fresh(state)
      ensures state.id == |old(t.s).scopes| && !state.done && t.HasTask(state)
      ensures state.id < |t.tokens| && t.tokens[state.id] == state.token
    {
      hide Tree.Linked, Tree.LinkedWith, Tree.TokensValid;
      ScopeAt(t, this);
      ghost var rec := S.Scope(Some(id), grace, S.Running, None, t.s.scopes[id].cancelled, []);
      var token := NewToken(t, rec);
      state := new TaskState(|t.s.scopes|, token);
      var child := new Scope(|t.s.scopes|, this, grace, state);
      t.Register(token, state, child, rec);
    }

    /** A child of this scope's token. */
    method NewToken(t: Tree, ghost rec: S.Scope) returns (token: CancelToken)
      requires t.Linked() && t.Has(this) && rec.parent == Some(id)
      modifies task.token`children
      ensures t.LinkedWith(token, rec) && fresh(token) && token.id == |t.s.scopes| && id < |t.s.scopes|
      ensures token.flag == t.s.scopes[id].cancelled
    {
      ScopeAt(t, this);
      LinkedTokens(t);
      GrowParents(t.s.scopes, rec);
      hide Tree.ScopesValid, Tree.TasksValid, Wired, S.ParentsOf;
      token := task.token.ChildToken(t.tokens, S.ParentsOf(t.s.scopes));
    }

    /** Drop the finished tasks from the list (`retain`). */
    method Retain(t: Tree)
      requires t.Linked() && t.Has(this)
      modifies this`children, t`s
      ensures t.Linked() && id < |old(t.s).scopes|
      ensures t.s == old(t.s).(scopes := old(t.s).scopes[id := old(t.s).scopes[id].(
        children := S.Unfinished(old(t.s), old(t.s).scopes[id].children))])
    {
      hide Tree.Linked, Tree.TasksAre, S.Unfinished;
      var kept := Kept(t);
      SetChildren(t, kept, S.Unfinished(t.s, t.s.scopes[id].children));
    }

    method SetChildren(t: Tree, list: seq<TaskState>, ghost ids: seq<nat>)
      requires t.Linked() && t.Has(this) && t.TasksAre(list, ids)
      modifies this`children, t`s
      ensures t.Linked() && id < |old(t.s).scopes|
      ensures t.s == old(t.s).(scopes := old(t.s).scopes[id := old(t.s).scopes[id].(children := ids)])
    {
      hide Tree.TasksAre, Tree.TasksValid, Tree.TokensValid;
      ScopeAt(t, this);
      ghost var recs := t.s.scopes[id := t.s.scopes[id].(children := ids)];
      TasksFrame(t, t.s.scopes, recs);
      TokensFrame(t, t.s.scopes, recs);
      children := list;
      t.s := t.s.(scopes := recs);
    }

    method Kept(t: Tree) returns (kept: seq<TaskState>)
      requires t.Linked() && t.Has(this)
      ensures id < |t.s.scopes| && t.TasksAre(kept, S.Unfinished(t.s, t.s.scopes[id].children))
    {
      hide Tree.Linked, S.Unfinished;
      ScopeAt(t, this);
      ghost var ids := t.s.scopes[id].children;
      kept := [];
      ghost var keptIds: seq<nat> := [];
      var k := 0;
      while k < |children|
        invariant k <= |children| == |ids| && t.TasksAre(kept, keptIds)
        invariant keptIds + S.Unfinished(t.s, ids[k..]) == S.Unfinished(t.s, ids)
      {
        TaskAt(t, this, k);
        UnfinishedFrom(t.s, ids, k, keptIds);
        if !children[k].done {
          kept := kept + [children[k]];
          keptIds := keptIds + [ids[k]];
        }
        k := k + 1;
      }
      NoneUnfinished(t.s);
      assert ids[k..] == [] && keptIds + [] == keptIds;
    }

    method Push(t: Tree, child: TaskState)
      requires t.Linked() && t.Has(this) && t.HasTask(child)
      modifies this`children, t`s
      ensures t.Linked() && id < |old(t.s).scopes|
      ensures t.s == old(t.s).(scopes := old(t.s).scopes[id := old(t.s).scopes[id].(
        children := old(t.s).scopes[id].children + [child.id])])
    {
      hide Tree.Linked;
      ScopeAt(t, this);
      SetChildren(t, children + [child], t.s.scopes[id].children + [child.id]);
    }
  }

  /** A new scope below `u` that no list names yet. */
  function WithChild(s: S.State, u: nat, g: nat): S.State
    requires u < |s.scopes|
  {
    s.(scopes := s.scopes + [S.Scope(Some(u), g, S.Running, None, s.scopes[u].cancelled, [])])
  }

  /** Spawning in steps: a new scope, cancelled if its parent drains, and then listed. */
  function Spawned(s: S.State, u: nat, g: nat): S.State
    requires u < |s.scopes|
  {
    var n := |s.scopes|;
    var s1 := WithChild(s, u, g);
    var scopes := if s.scopes[u].phase.Draining? then S.CancelBelow(s1.scopes, {n}) else s1.scopes;
    s1.(scopes := scopes[u := scopes[u].(children := S.Unfinished(s1, scopes[u].children) + [n])])
  }

  lemma SpawnRefused(s: S.State, u: nat, g: nat)
    requires u < |s.scopes|
    ensures S.OutOfTime(s, u) ==> S.Apply(s, S.Spawn(u, g)) == s
  {
  }

  lemma SpawnInSteps(s: S.State, u: nat, g: nat)
    requires S.Inv(s) && u < |s.scopes| && !S.OutOfTime(s, u)
    ensures S.Apply(s, S.Spawn(u, g)) == Spawned(s, u, g)
  {
    var n := |s.scopes|;
    var s1 := WithChild(s, u, g);
    assert S.ScopeOk(s, u);
    SpawnUnfinished(s, s1, s.scopes[u].children);
    forall v: nat | v <= n ensures S.Above(s1.scopes, n, v) == (v == n) {
      if S.Above(s1.scopes, n, v) { F.AboveOlder(S.ParentsOf(s1.scopes), n, v); }
    }
  }

  lemma {:induction false} SpawnUnfinished(s: S.State, s1: S.State, list: seq<nat>)
    requires forall c :: c in list ==> c < |s.scopes|
    requires |s.scopes| <= |s1.scopes| && forall c :: 0 <= c < |s.scopes| ==> s1.scopes[c] == s.scopes[c]
    ensures S.Unfinished(s1, list) == S.Unfinished(s, list)
  {
    if list != [] {
      assert forall c :: c in list[1..] ==> c in list;
      SpawnUnfinished(s, s1, list[1..]);
    }
  }

  /** The invariant of scopes says that a cancelled token has its children cancelled. */
  lemma InvFlags(t: Tree)
    requires t.Valid()
    ensures FlagsClosed(t.tokens, S.ParentsOf(t.s.scopes))
  {
    forall u: nat | u < |t.s.scopes| ensures S.ScopeOk(t.s, u) { assert t.s.scopes[u] == t.s.scopes[u]; }
  }

  lemma EndBodyIs(s: S.State, u: nat)
    requires u < |s.scopes| && s.scopes[u].phase.Running?
    ensures S.Apply(s, S.EndBody(u)) == s.(scopes :=
      S.CancelBelow(s.scopes[u := S.WithDeadline(s, u).(phase := S.Draining)], S.Members(s.scopes[u].children)))
    ensures S.WithDeadline(s, u).children == s.scopes[u].children
  {
  }

  lemma DrainFlags(t: Tree, id: nat)
    requires FlagsClosed(t.tokens, S.ParentsOf(t.s.scopes)) && id < |t.s.scopes|
    ensures FlagsClosed(t.tokens, S.ParentsOf(t.s.scopes[id := S.WithDeadline(t.s, id).(phase := S.Draining)]))
  {
    hide S.NewDeadline;
    FlagsFrame(t.tokens, t.s.scopes, t.s.scopes[id := S.WithDeadline(t.s, id).(phase := S.Draining)]);
  }

  lemma FlagsFrame(tokens: seq<CancelToken>, recs: seq<S.Scope>, recs': seq<S.Scope>)
    requires FlagsClosed(tokens, S.ParentsOf(recs)) && |recs'| == |recs|
    requires forall i :: 0 <= i < |recs| ==> recs'[i].parent == recs[i].parent
    ensures FlagsClosed(tokens, S.ParentsOf(recs'))
  {
  }

  lemma GrowParents(recs: seq<S.Scope>, rec: S.Scope)
    ensures S.ParentsOf(recs + [rec]) == S.ParentsOf(recs) + [rec.parent]
  {
  }

  lemma SameLists(s: S.State, roots: set<nat>)
    ensures var scopes := S.CancelBelow(s.scopes, roots);
      forall u :: 0 <= u < |scopes| ==>
        scopes[u].children == s.scopes[u].children && scopes[u].phase == s.scopes[u].phase
  {
  }

  lemma {:induction false} SameUnfinished(s: S.State, s': S.State, list: seq<nat>)
    requires |s'.scopes| == |s.scopes| && forall u :: 0 <= u < |s.scopes| ==> s'.scopes[u].phase == s.scopes[u].phase
    ensures S.Unfinished(s', list) == S.Unfinished(s, list)
  {
    if list != [] { SameUnfinished(s, s', list[1..]); }
  }

  lemma UnfinishedFrom(s: S.State, ids: seq<nat>, k: nat, kept: seq<nat>)
    requires k < |ids|
    ensures kept + S.Unfinished(s, ids[k..]) ==
      (if S.Done(s, ids[k]) then kept else kept + [ids[k]]) + S.Unfinished(s, ids[k + 1..])
  {
    assert ids[k..][1..] == ids[k + 1..];
  }

  lemma NoneUnfinished(s: S.State)
    ensures S.Unfinished(s, []) == []
  {
  }

  lemma CancelNone(recs: seq<S.Scope>)
    ensures S.CancelBelow(recs, S.Members([])) == recs
  {
  }

  lemma SameChildren(recs: seq<S.Scope>, roots: set<nat>, id: nat)
    requires id < |recs|
    ensures S.CancelBelow(recs, roots)[id].children == recs[id].children
  {
  }

  /** Cancelling what is below one more root. */
  lemma CancelMore(recs: seq<S.Scope>, ids: seq<nat>, k: nat)
    requires k < |ids|
    ensures S.CancelBelow(S.CancelBelow(recs, S.Members(ids[..k])), {ids[k]})
         == S.CancelBelow(recs, S.Members(ids[..k + 1]))
  {
    var first := S.CancelBelow(recs, S.Members(ids[..k]));
    forall u: nat | u < |recs|
      ensures S.CancelBelow(first, {ids[k]})[u] == S.CancelBelow(recs, S.Members(ids[..k + 1]))[u]
    {
      assert ids[..k + 1] == ids[..k] + [ids[k]];
      S.AboveSame(recs, first, ids[k], u);
      assert S.Covers(recs, S.Members(ids[..k + 1]), u)
        == (S.Covers(recs, S.Members(ids[..k]), u) || S.Above(recs, ids[k], u));
    }
  }
}
