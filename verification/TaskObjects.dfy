/** Task handles, the registry and select cases as the program runs them. */
module TaskObjects {
  import opened Basics
  import T = TaskHandles

  /** A spawned task: its finished flag and its result slot. */
  class Spawned {
    var done: bool
    var result: Option<T.Values>

    constructor ()
      ensures !done && result == None
    {
      done, result := false, None;
    }

    /** The body ended: fill the slot, then mark the task done. */
    method Finish(out: T.BodyOut, tokenCancelled: bool)
      requires !done
      modifies this
      ensures done && result == T.Result(out, tokenCancelled) && T.Yields(T.End(out, tokenCancelled), result)
    {
      result := T.Result(out, tokenCancelled);
      done := true;
    }
  }

  /** The Lua handle. */
  class Handle {
    const id: nat
    var joined: bool

    constructor (id: nat)
      ensures this.id == id && !joined
    {
      this.id, joined := id, false;
    }
  }

  datatype JoinOut = AlreadyJoined | Unknown | NotDone | Result(values: Option<T.Values>)

  /** From the identifier in a handle to its task, until the task is joined. */
  class Registry {
    var tasks: map<nat, Spawned>
    var nextId: nat

    ghost predicate Valid()
      reads this
    {
      forall id :: id in tasks ==> id < nextId
    }

    constructor ()
      ensures Valid() && tasks == map[]
    {
      tasks, nextId := map[], 0;
    }

    /** Register a task under an identifier never used before. */
    method Insert(task: Spawned) returns (id: nat)
      requires Valid()
      modifies this
      ensures Valid() && id !in old(tasks) && tasks == old(tasks)[id := task] && nextId > id >= old(nextId)
    {
      id := nextId;
      nextId := nextId + 1;
      tasks := tasks[id := task];
    }

    method Get(id: nat) returns (task: Option<Spawned>)
      ensures task == if id in tasks then Some(tasks[id]) else None
    {
      if id in tasks { return Some(tasks[id]); }
      return None;
    }

    /** Remove the entry of a task, as its join does. */
    method Forget(id: nat)
      requires Valid()
      modifies this`tasks
      ensures Valid() && tasks == old(tasks) - {id}
    {
      tasks := tasks - {id};
    }

    /** Enter the task again, as an undone join does. */
    method Restore(id: nat, task: Spawned)
      requires Valid() && id < nextId
      modifies this`tasks
      ensures Valid() && tasks == old(tasks)[id := task]
    {
      tasks := tasks[id := task];
    }

    /** `Task:join` up to its wait: the task to wait for, or why there is none. */
    method StartJoin(handle: Handle) returns (task: Option<Spawned>, out: JoinOut)
      modifies handle`joined
      ensures handle.joined
      ensures if old(handle.joined) then task.None? && out == AlreadyJoined
        else if handle.id in tasks then task == Some(tasks[handle.id]) && out == NotDone
        else task.None? && out == Unknown
    {
      if handle.joined { return None, AlreadyJoined; }
      handle.joined := true;
      task := Get(handle.id);
      out := if task.Some? then NotDone else Unknown;
    }

    /** ... and after it: forget the task and take its result. */
    method EndJoin(handle: Handle, task: Spawned) returns (out: JoinOut)
      requires Valid() && handle.joined && task.done
      modifies this`tasks, task`result
      ensures Valid() && tasks == old(tasks) - {handle.id}
      ensures out == Result(old(task.result))
      ensures (CoreOf(this, handle, task), out.values) == T.TakeResult(old(CoreOf(this, handle, task)))
    {
      Forget(handle.id);
      var values := task.result;
      task.result := None;
      return Result(values);
    }
  }

  /** What the handle, its task and the registry say together. */
  ghost function CoreOf(reg: Registry, handle: Handle, task: Spawned): T.Core
    reads reg, handle, task
  {
    T.Core(task.done, task.result, handle.joined, handle.id in reg.tasks)
  }

  /** The case of a task handle in a select. */
  class TaskArm {
    const reg: Registry
    const handle: Handle
    const task: Spawned
    /** The result that this case holds while its join may still be undone. */
    var taken: Option<Option<T.Values>>

    constructor (reg: Registry, handle: Handle, task: Spawned)
      ensures this.reg == reg && this.handle == handle && this.task == task && taken == None
    {
      this.reg, this.handle, this.task, taken := reg, handle, task, None;
    }

    ghost function Core(): T.Core
      reads reg, handle, task
    {
      CoreOf(reg, handle, task)
    }

    /** If the task finished, join it (`poll_take`). */
    method PollTake() returns (out: JoinOut)
      requires reg.Valid()
      modifies this`taken, reg`tasks, handle`joined, task`result
      ensures reg.Valid() && reg.nextId == old(reg.nextId)
      ensures out.NotDone? <==> !task.done
      ensures out.AlreadyJoined? <==> task.done && old(handle.joined)
      ensures !out.Result? ==> Core() == old(Core()) && taken == old(taken) && reg.tasks == old(reg.tasks)
      ensures out.Result? ==>
        && (Core(), out.values) == T.TakeResult(old(Core()))
        && taken == Some(out.values) && reg.tasks == old(reg.tasks) - {handle.id}
      ensures !out.Unknown?
    {
      if !task.done { return NotDone; }
      out := Join();
    }

    /** Join a finished task: handle, registry and result slot change together (`join`). */
    method Join() returns (out: JoinOut)
      requires reg.Valid()
      modifies this`taken, reg`tasks, handle`joined, task`result
      ensures reg.Valid() && reg.nextId == old(reg.nextId)
      ensures out.AlreadyJoined? <==> old(handle.joined)
      ensures out.AlreadyJoined? ==> Core() == old(Core()) && taken == old(taken) && reg.tasks == old(reg.tasks)
      ensures !old(handle.joined) ==>
        && out.Result? && (Core(), out.values) == T.TakeResult(old(Core()))
        && taken == Some(out.values) && reg.tasks == old(reg.tasks) - {handle.id}
    {
      if handle.joined { return AlreadyJoined; }
      handle.joined := true;
      reg.Forget(handle.id);
      var values := task.result;
      task.result := None;
      taken := Some(values);
      return Result(values);
    }

    /** Reverse `Join`, so that another join may follow (`untake`). */
    method Untake()
      requires reg.Valid() && handle.id < reg.nextId
      modifies this`taken, reg`tasks, handle`joined, task`result
      ensures reg.Valid() && taken == None
      ensures old(taken).None? ==> Core() == old(Core()) && reg.tasks == old(reg.tasks)
      ensures old(taken).Some? ==>
        && Core() == T.GiveBack(old(Core()), old(taken).value)
        && reg.tasks == old(reg.tasks)[handle.id := task]
    {
      if taken.Some? {
        task.result := taken.value;
        reg.Restore(handle.id, task);
        handle.joined := false;
        taken := None;
      }
    }

    /**
     A case chosen whose handler was never entered: the take is given back, and
     flag, result slot and registry are as before.
     */
    method TakeAndGiveBack() returns (out: JoinOut)
      requires reg.Valid() && handle.id in reg.tasks && reg.tasks[handle.id] == task
      requires task.done && !handle.joined
      modifies this`taken, reg`tasks, handle`joined, task`result
      ensures out == Result(old(task.result))
      ensures Core() == old(Core()) && reg.tasks == old(reg.tasks) && taken == None
    {
      ghost var before := reg.tasks;
      out := PollTake();
      Untake();
      assert (before - {handle.id})[handle.id := task] == before;
    }
  }
}
