# Verified model of mlua-isle

mlua-isle runs Lua VMs on threads of their own: coroutine requests and tasks
with channels and `select`, a tree of scopes with cancellation and one grace
deadline, cancel tokens shared by threads, a pool of VMs and one debug hook per
VM.  This project models those parts in Dafny and proves what their comments
promise, over every run and every interleaving of their steps.

`dafny verify dfyconfig.toml` checks the whole project.

## How it is built

Each part has up to three layers.

* **A step function.**  The abstract state is a value and one atomic step is a
  total function on it: one poll of one wait or one synchronous call for
  channels and `select`; one poll of one body for scopes; one atomic action of
  one thread for cancel tokens, the fan-out waker and the pool.  A run is any
  sequence of enabled steps (`RunsTo`, `Reachable`), so every theorem about
  reachable states covers every order of polls, cancels, drops, sends, closes,
  put-backs, thread switches and time-outs.
* **Invariants and theorems** about all runs of those steps.
* **Classes** (`Channels`, `ChanFutures`, `SelectFutures`, `CancelTokens`,
  `TokenChildren`, `ScopeObjects`, `PoolObjects`, `HubObjects`, `TaskObjects`)
  with the fields and loops of the program, changed in place.  A registry object
  (`Vm`, `Tree`) lists the objects and holds the abstract state in a ghost
  field; each method is proved to do to that state exactly what its step
  function does.

| part | source | modules |
|---|---|---|
| channels | `src/chan.rs` | `ChanSpec`, `ChanInv`, `ChanArm`, `ChanLedger`, `ChanProgress`, `Channels`, `ChanFutures` |
| select | `src/select.rs` | `SelectSpec`, `SelectInv`, `SelectPoll`, `SelectRun`, `SelectTheorems`, `SelectOutcomes`, `SelectResults`, `SelectReturns`, `SelectOrder`, `SelectReady`, `SelectCalls`, `SelectValues`, `SelectFutures` |
| host channel waker | `src/chan.rs` | `FanOut` |
| cancel tokens | `src/hook.rs` | `Tokens`, `TokenChildren`, `CancelTokens` |
| cancel tokens, scopes | `src/hook.rs`, `src/scope.rs` | `Forest` (ancestors, shared by both) |
| scopes | `src/scope.rs` | `Scopes`, `ScopeDeadlines`, `ScopeSteps`, `ScopeDrain`, `ScopeObjects` |
| pool | `src/pool.rs` | `Pool`, `PoolUse`, `PoolObjects` |
| hook counters | `src/hub.rs` | `Hub`, `HubObjects` |
| task handles | `src/select.rs`, `src/task_lib.rs` | `TaskHandles`, `TaskObjects` |

### Channels and select

A `Heap` holds the channels, offers, waiters and select marks of a VM;
identifiers stand for the shared references.  Lua values are opaque.  An `Item` is
a value together with the serial number of its send and the select it came from,
so that two sends of equal values stay apart.  `sends`, `accepted`, `handed`,
`pushed`, `popped` and `putBacks` are bookkeeping that no branch of the program
depends on.  `woken` is the set of scheduled tasks; a poll removes its task and
every wake adds one, so "asleep" means "in `waits` and not in `woken`".

A wait is a plain `recv` or `send` (one case, no mark) or a `select`.  A timer or
task case is a flag that is up from the start or that the environment raises (and
that wakes the task).

The invariant (`SelectInv.Inv`) says that the queues and records agree, that a
case of a sleeping task is quiet and registered with whatever can make it ready,
that a claimed select has its delivered case, that only waits in progress own
open offers or queued waiters, and that every accepted value is in exactly one
place.  `SelectRun.ApplyInv` proves that every operation keeps it.

### Scopes

The comment on `ancestors_deadline` says that a scope's deadline is never later
than its ancestors'.  That fails: a task takes the VM's grace at the moment it is
spawned, and if it sees a cancel before a parent with a shorter grace, it takes
its deadline unclamped.  `ScopeDeadlines.LongerGraceFails` is such a run (a
request with grace 1, a task with grace 2, the task polled first).
`ScopeDeadlines.OrderedExactly` gives, for every reachable state, the exact
condition under which a scope ends no later than its ancestors in every further
run, as a comparison of the deadlines, graces and clock of that state; before any
of them took a deadline it says that no ancestor has a shorter grace
(`UndecidedExactly`).

### Hook counters

A callback for every `n`-th instruction adds up 32-bit counts.
`Hub.CallbackPeriod` proves when it runs, with the wrap of a release build:
exactly as long as the count rounded up to whole hook events fits 32 bits, which
excludes only `n` within one hook event of 2^32.  `Hub.MissedCallback` is such an
`n`.

## Model

| member | source | states |
|---|---|---|
| `ChanSpec.FindWaiter` | src/chan.rs:185-189 | finds the first waiter that is empty, of no claimed select and not of the sender's own select, or reports that there is none |
| `ChanSpec.FindOffer` | src/chan.rs:203-206 | finds the first open offer of no claimed select and not of the receiver's own select, or reports that there is none |
| `ChanInv.FillStructure` | src/chan.rs:185-197 | filling a slot keeps every queue, record and select consistent; the value is in the slot and its send accepted |
| `ChanInv.TakeOfferStructure` | src/chan.rs:203-216 | taking an eligible offer keeps the structure: the offer leaves its queue, its select is claimed and has no other taken offer |
| `ChanInv.CloseStructure` | src/chan.rs:655-677 | a close keeps every queue, record and select consistent |
| `ChanInv.CloseWithdraws` | src/chan.rs:655-677 | a close withdraws exactly the open offers of its channel, leaves every other offer as it was and every waiter in its queue |
| `ChanInv.CloseFine` | src/chan.rs:655-677 | after a close every case that waits on the channel is awake, and every other case is as quiet as before |
| `ChanArm.PollArmFine` | src/chan.rs:755-804 | polling one case, with whatever it takes, fills, posts or wakes, leaves every other case agreeing with the heap and awake if it became ready |
| `ChanArm.PollArmSelf` | src/chan.rs:975-1024 | the polled case agrees with the heap afterwards: quiet and registered if pending, with nothing left behind if ready |
| `ChanArm.WithdrawSelf` | src/chan.rs:815-828 | withdrawing leaves no open offer and no queued waiter of the case |
| `ChanLedger.PollArmBalance` | src/chan.rs:516-602 | a poll keeps accepted = handed out + stored, for every value |
| `ChanLedger.WithdrawArmBalance` | src/chan.rs:815-828 | a withdrawal keeps it too, whatever the case holds |
| `ChanProgress.PollArmAfter` | src/chan.rs:516-602 | a poll keeps FIFO order, capacity, closes, claims and the ends of sends and offers; nobody joins the queues of a closed channel and no slot there is filled |
| `SelectRun.PollInv` | src/select.rs:231-245 | one poll of a wait keeps the whole invariant and undoes nothing final |
| `SelectRun.CancelInv` | src/select.rs:304-342 | a cancelled or dropped wait keeps the whole invariant |
| `SelectRun.CheckNowInv` | src/select.rs:258-272 | a check without waiting keeps the whole invariant |
| `SelectRun.TrySendInv` | src/chan.rs:614-648 | `try_send` keeps the whole invariant, whether it fills a slot, pushes or fails |
| `SelectRun.TryRecvInv` | src/chan.rs:540-564 | `try_recv` keeps the whole invariant, from the buffer or from an offer |
| `SelectRun.PutBackInv` | src/chan.rs:570-576 | a put-back, even past the capacity or after a close, keeps the whole invariant |
| `SelectRun.CloseInv` | src/chan.rs:655-677 | a close keeps the whole invariant |
| `SelectRun.ApplyInv` | src/select.rs:228-342 | every operation of every task keeps the invariant |
| `SelectTheorems.NoLostWakeup` | src/chan.rs:10-15 | in every reachable state, polling a sleeping task would find no case ready and change nothing: a sleeping receiver has an empty buffer, slot and offer queue and an open channel, a sleeping sender a full or untaken send on an open channel |
| `SelectTheorems.NoSleepingPair` | src/chan.rs:24-36 | a sender and a receiver of one channel never both sleep |
| `SelectTheorems.ValuesConserved` | src/chan.rs:28-36 | over every run, each accepted value is exactly once with a receiver, in a buffer or in a filled slot |
| `SelectTheorems.PollHandsItsResult` | src/select.rs:210-214 | one poll hands out the value it resolves with and no other: cases not chosen consume nothing |
| `SelectOutcomes.PollEnds` | src/select.rs:231-288 | a poll that resolves ends every send of its wait, the chosen one as accepted exactly when it reports sent and the others as refused, and moves no other value |
| `SelectOutcomes.DeliveredIsChosen` | src/select.rs:275-279 | if an offer of a select was taken, the select resolves with that case whatever else is ready, also on a cancel |
| `SelectOutcomes.NeverOwnValue` | src/chan.rs:33-36 | in every reachable state, a select receives no value of its own |
| `SelectOutcomes.CancelEnds` | src/select.rs:304-316 | a cancelled wait resolves with its delivered case or refuses every send; it receives and accepts nothing |
| `SelectOutcomes.WithdrawAllEnds` | src/chan.rs:1038-1064 | a dropped wait ends each send, as accepted if its offer was taken and as refused otherwise |
| `SelectOutcomes.RefusedForever` | src/select.rs:318-342 | over any further run, a refused value is never in a channel or with a receiver |
| `SelectOutcomes.AcceptedForever` | src/select.rs:318-342 | over any further run, an accepted send stays accepted |
| `SelectResults.CheckEnds` | src/select.rs:248-272 | a select with a default chooses at most one case, ends every send before it returns, moves no other value and receives none of its own |
| `SelectResults.SendIsTruthful` | src/select.rs:327-342 | when a send's wait ends, its value is for ever after exactly once with a receiver or in the channel if it reported sent, and nowhere if it did not |
| `SelectResults.CancelledSendIsTruthful` | src/select.rs:318-342 | the same for a send whose cancel was seen: success is reported exactly for a delivered value |
| `SelectResults.OneTaken` | src/chan.rs:33-36 | at most one offer of a select is ever taken, over all channels |
| `SelectResults.UnchosenMoveNothing` | src/select.rs:281-289 | polling a wait leaves every value but the one it received or sent where the channels hold it |
| `SelectResults.CancelMovesNothing` | src/select.rs:304-316 | cancelling or dropping a wait changes no channel's contents in total |
| `SelectResults.NothingLeftBehind` | src/chan.rs:28-33 | a task that waits for nothing has no open offer and no queued waiter anywhere |
| `SelectResults.BoundedQueue` | src/chan.rs:1-3 | without put-backs what was received is a prefix of what was pushed, and k put-backs exceed the capacity by at most k |
| `SelectResults.ClosedDrains` | src/chan.rs:649-677 | over any run after a close nothing more is pushed, no offer is posted or taken and no slot filled; without put-backs the rest drains in order |
| `SelectReturns.WithdrawReturns` | src/select.rs:291-296 | withdrawing the cases of a wait puts the value of each filled slot to the front of its channel, that of the last case first, and changes no buffer otherwise |
| `SelectReturns.PollReturns` | src/chan.rs:815-828 | in every reachable state, after a whole poll each buffer is what the chosen case left of it, with the values from the slots of the cases not chosen in front; a pending poll changes no buffer |
| `SelectReturns.CancelReturns` | src/select.rs:304-316 | after a cancel or a drop each buffer is as before, with the values from all filled slots of the wait in front |
| `SelectReturns.ReceivesInOrder` | src/chan.rs:516-527 | in every reachable state, a select or receive without put-backs gets from a buffered channel the first pushed value that was not received yet, and sees the close only when all were |
| `SelectReturns.PlainWaits` | src/chan.rs:516-530 | a plain receive waits exactly while all that was pushed was received and the channel is open |
| `SelectOrder.InOrderOfArrival` | src/chan.rs:1012-1018 | in every reachable state the offers and the waiters of each channel are queued in the order in which they were posted |
| `SelectReady.PollsReady` | src/chan.rs:755-804 | a poll of one case is ready if and only if the case can go, and reports the slot's value, the front of the buffer or the first offer it may take, in this order, a close only when there is none, and the fate of its own offer |
| `SelectReady.PollChoosesFirst` | src/select.rs:231-245 | in every reachable state a poll resolves with a delivered case if there is one; else it waits if and only if no case can go, and of those that can it takes the first, counted from its start and around |
| `SelectCalls.CheckExactly` | src/select.rs:258-272 | in every reachable state the default of a select runs if and only if no case could go before the call; otherwise the first that could is chosen and gets what was there: the front of the buffer, the oldest offer, or an accepted send |
| `SelectCalls.TrySendIsTruthful` | src/chan.rs:614-648 | `try_send` reports a close exactly for a closed channel, full exactly without room or a waiting receive, and success exactly when its value is accepted, at the back of the buffer or with the oldest waiting receive; over every further run the value is once with a receiver or in a channel after a success, and nowhere otherwise |
| `SelectCalls.TryRecvAnswers` | src/chan.rs:540-564 | `try_recv` gets the front of the buffer, or the oldest offer, if there is one; it reports closed or empty exactly when there is none, and changes nothing then |
| `SelectCalls.PutBackIsNext` | src/chan.rs:566-576 | a value put back is the next one received from its channel, whose buffer is then as before |
| `SelectValues.ReceivedAsSent` | src/chan.rs:182-216 | over every run, a value with a receiver or in a channel is what some call of the run was given to send, by its serial number |
| `SelectValues.OfferedAsSent` | src/chan.rs:1012-1018 | an offer on a channel carries what some call was given to send to that channel |
| `SelectValues.StartsAsCalled` | src/select.rs:207-226 | a new wait has exactly the cases of its call, in order, with their channels and values, and touches no channel yet |
| `Channels.Vm.Wake` | src/chan.rs:446-450 | wakes exactly the tasks of the given wakers |
| `Channels.Vm.NewChan` | src/chan.rs:157-172 | a new channel is empty, open and unknown to anyone |
| `Channels.SelectMark.Claim` | src/chan.rs:116-118 | claiming a mark changes that mark alone |
| `Channels.ChanCore.ReceiverWakers` | src/chan.rs:175-179 | takes the plain wakers and copies those of the waiters, in order |
| `Channels.ChanCore.FindWaiter` | src/chan.rs:185-188 | the loop finds the first fillable waiter |
| `Channels.ChanCore.FillWaiter` | src/chan.rs:185-197 | fills the first fillable waiter and returns its waker, or changes nothing |
| `Channels.ChanCore.FindOffer` | src/chan.rs:203-206 | the loop finds the first eligible offer |
| `Channels.Offer.Take` | src/chan.rs:207-214 | marks the offer taken, claims its select and yields the value posted, which is never missing |
| `Channels.ChanCore.TakeOffer` | src/chan.rs:203-216 | takes the first eligible offer off the queue and returns its value and its sender's waker, or changes nothing |
| `Channels.ChanCore.PollRecv` | src/chan.rs:516-530 | a receive from a buffered channel does what its step function does |
| `Channels.ChanCore.TryRecv` | src/chan.rs:540-564 | the same for `try_recv` |
| `Channels.ChanCore.Unrecv` | src/chan.rs:570-576 | the same for a put-back |
| `Channels.ChanCore.PollSend` | src/chan.rs:582-602 | the same for a send into a buffered channel; the value is used up exactly when it is pushed |
| `Channels.ChanCore.TrySend` | src/chan.rs:614-648 | the same for `try_send` |
| `Channels.ChanCore.Close` | src/chan.rs:655-677 | the same for a close, with its loop over the open offers |
| `Channels.Vm.MarkWithdrawn` | src/chan.rs:669-672 | the loop marks exactly the taken offers withdrawn and collects their wakers in order |
| `ChanFutures.Receiving.Poll` | src/chan.rs:755-804 | polling a receive does to the shared objects what the step function does to the heap |
| `ChanFutures.Receiving.Forget` | src/chan.rs:807-811 | removes the waiter from the queue, if there is one |
| `ChanFutures.Receiving.Withdraw` | src/chan.rs:815-828 | removes the waiter and puts a value left in its slot back to the front |
| `ChanFutures.Sending.Poll` | src/chan.rs:975-1024 | polling a send does what the step function does |
| `ChanFutures.Sending.Delivered` | src/chan.rs:1028-1032 | reports whether the offer was taken |
| `ChanFutures.Sending.Withdraw` | src/chan.rs:1038-1058 | withdraws an open offer; a taken one stays taken |
| `SelectFutures.SelectFuture.FirstDelivered` | src/select.rs:275-276 | the loop finds the first delivered send case |
| `SelectFutures.SelectFuture.Resolve` | src/select.rs:282-289 | claims the select and withdraws every case but the chosen one |
| `SelectFutures.SelectFuture.WithdrawAll` | src/select.rs:281-296 | the loop withdraws every case but the chosen one, in order |
| `SelectFutures.SelectFuture.Poll` | src/select.rs:231-245 | one poll: a delivered case first, else the cases in turn from `start`, stopping at the first that is ready |
| `SelectFutures.SelectFuture.PollNow` | src/select.rs:258-272 | makes the sends eager, polls once, and withdraws every case when none is ready |
| `SelectFutures.SelectFuture.Cancel` | src/select.rs:304-316 | a delivered case still counts, otherwise every case is dropped |
| `SelectFutures.PlainPoll` | src/select.rs:327-331 | polling a plain receive or send is polling the wait of that one case |
| `FanOut.HostOrder` | src/chan.rs:265-299 | over every run, values leave the host's queue in the order in which hosts sent them, each once, whichever receiver takes them |
| `FanOut.HostConserved` | src/chan.rs:241-299 | over every run, each value that a host sent is once with a receiver, put back or still queued |
| `FanOut.HostStepKeeps` | src/chan.rs:265-275 | a push, a dropped sender and each part of the wake keep every waiting receiver covered |
| `FanOut.LuaStepKeeps` | src/chan.rs:286-299 | each part of a poll, and every other call on the Lua thread, keeps it too |
| `FanOut.WakeOnItsWay` | src/chan.rs:241-252 | at every moment, a receiver that sleeps with a value queued is about to be woken by some host thread |
| `FanOut.NoLostWakeup` | src/chan.rs:241-299 | when no host thread is between a push and the end of its wake, no receiver sleeps while a value is queued or put back or the channel is closed |
| `Tokens.StepTracked` | src/hook.rs:73-121 | every step of every thread keeps each live uncancelled child in reach of whoever cancels, or cancelled, its parent |
| `Tokens.StepPushOk` | src/hook.rs:107-119 | a child pushed after an unset flag was read under the lock is still found by a cancel that set the flag since |
| `Tokens.CancelMissesNobody` | src/hook.rs:34-41 | once no call is in progress, every live descendant of a cancelled token is cancelled, also through dropped middle handles |
| `Tokens.CancelledForCause` | src/hook.rs:101-104 | no token is cancelled unless `cancel` was called on it or an ancestor |
| `Tokens.CalledIsCancelled` | src/hook.rs:124-131 | when the calls are over, every token that `cancel` was called on is cancelled |
| `CancelTokens.CancelToken.Cancel` | src/hook.rs:73-83 | the recursive cancel sets the flags of exactly the token and everything below it |
| `CancelTokens.CancelToken.ChildToken` | src/hook.rs:105-121 | a child of a cancelled token starts cancelled, any other is listed |
| `TokenChildren.LiveMembers` | src/hook.rs:115 | sweeping removes exactly the dead entries |
| `TokenChildren.Children.Add` | src/hook.rs:107-119 | adding never drops a live child, stores at most max(16, twice the live entries of the last sweep) and scans at most two entries per call in total |
| `TokenChildren.Children.Sweep` | src/hook.rs:115 | the loop keeps the live entries, in order |
| `TokenChildren.Children.TakeAll` | src/hook.rs:79 | a cancel takes the whole list and leaves none |
| `Scopes.StepInv` | src/scope.rs:143-240 | every spawn, cancel, end of a body, close and tick keeps the tree in order |
| `Scopes.StepAfter` | src/scope.rs:78-90 | a scope only moves on: phases advance, deadlines are written once, cancels stay |
| `Scopes.NothingOutlives` | src/scope.rs:404-410 | when a scope is closed, every scope below it is closed and its task done, at any depth and whenever it was added |
| `Scopes.ClosedForGood` | src/scope.rs:169-174 | over any further run nothing new runs below a closed scope |
| `ScopeDeadlines.AncestorsBound` | src/scope.rs:131-141 | the walk finds a deadline no later than that of any ancestor |
| `ScopeDeadlines.AncestorsAttained` | src/scope.rs:131-141 | and one that some ancestor has |
| `ScopeDeadlines.OneDeadline` | src/scope.rs:125-130 | a scope's deadline is no later than any ancestor's, whichever observed its cancel first, if no ancestor has a shorter grace |
| `ScopeDeadlines.UniformGrace` | src/scope.rs:452-464 | with one grace for the tree, all deadlines are ordered |
| `ScopeDeadlines.OrderedExactly` | src/scope.rs:125-130 | in every reachable state, a scope ends no later than its ancestors in every further run if and only if it fits each of them now: deadlines taken are in order, one still to come will not undercut it, or the graces or an earlier bound order both |
| `ScopeDeadlines.UndecidedExactly` | src/scope.rs:125-130 | before any of them took a deadline, that is if and only if no ancestor has a shorter grace |
| `ScopeDeadlines.LongerGraceFails` | src/scope.rs:125-130 | a run in which the promised order fails: grace 2 below grace 1, and the child observes the cancel first |
| `ScopeDeadlines.WrittenOnce` | src/scope.rs:438-442 | a deadline never changes once it is taken |
| `ScopeDeadlines.DrainingCancelsAll` | src/scope.rs:438-445 | a draining scope has a deadline and every unfinished task below it is cancelled |
| `ScopeDeadlines.NothingStartsLate` | src/scope.rs:193-202 | once the deadline of a draining scope has passed, no task starts in it over any further run |
| `ScopeSteps.SpawnStarts` | src/scope.rs:178-217 | in every reachable state a spawn starts one running task below the scope, last in its list, with the grace given and cancelled exactly under a cancelled or draining scope, if and only if the scope is running, or draining before its deadline; otherwise nothing changes |
| `ScopeSteps.DeadlineTaken` | src/scope.rs:438-442 | a deadline taken is the grace from now or an ancestor's deadline, whichever is first; no other scope's deadline or phase changes |
| `ScopeSteps.CancelReaches` | src/hook.rs:73-83 | a cancel flags exactly the scope and what is below it |
| `ScopeSteps.CancelledForCause` | src/scope.rs:219-223 | over every run, a scope is cancelled only if cancel was called on it or an ancestor, or the body of a proper ancestor has ended |
| `ScopeDrain.YoungestCloses` | src/scope.rs:227-240 | the youngest scope that is not closed has no unfinished task, so its wait ends |
| `ScopeDrain.DrainCanFinish` | src/scope.rs:404-410 | no drain is stuck: from every reachable state, ending bodies and closing scopes closes any given scope, whatever was spawned into whatever scope |
| `ScopeObjects.Scope.AncestorsDeadline` | src/scope.rs:131-141 | the loop computes the earliest deadline among the ancestors |
| `ScopeObjects.Scope.Add` | src/scope.rs:143-154 | drops finished tasks from the list, adds the new one, and cancels it when the scope is draining |
| `ScopeObjects.Scope.Spawn` | src/scope.rs:178-217 | takes the spawn step; a spawn into a scope that is closed, or draining at or past its deadline, returns a task already finished as cancelled, and any other a task that runs |
| `ScopeObjects.Scope.CancelAll` | src/scope.rs:219-223 | the loop cancels exactly what is below the tasks in the list |
| `ScopeObjects.Scope.NextUnfinished` | src/scope.rs:227-240 | the loop finds the first task that is not done, and none exactly when all are |
| `ScopeObjects.Scope.ObserveCancel` | src/scope.rs:465-474 | takes the deadline in the poll that sees the cancel |
| `ScopeObjects.Scope.EndBody` | src/scope.rs:438-445 | takes a deadline if there is none, drains and cancels the tasks |
| `ScopeObjects.Scope.Close` | src/scope.rs:445-448 | closes a scope whose tasks are done and marks its own task done |
| `ScopeObjects.Tree.CancelToken` | src/hook.rs:129-131 | cancelling a task's token cancels everything below it and nothing else |
| `ScopeObjects.Tree.DropHandle` | src/scope.rs:749-755 | dropping a handle takes the cancel step for its task, unless it was detached or the task is done: then nothing changes |
| `Pool.StepInv` | src/pool.rs:133-205 | every critical section keeps the bound and the promise to sleepers, also across time-outs, stealing, dead VMs and failed spawns |
| `Pool.Bounded` | src/pool.rs:58-64 | held, spawning and idle VMs never exceed `max_size`, the active count is exact, and a closed pool has no idle VM |
| `Pool.NoLostWakeup` | src/pool.rs:221-317 | while a checkout sleeps the pool is open and its free room is at most the number of woken threads that have not looked again; with none of those, every VM is in use |
| `Pool.NeverSaturates` | src/pool.rs:271 | the saturating subtractions never saturate |
| `PoolUse.OneHolder` | src/pool.rs:240-317 | over every run no VM is with two threads, and none in use is idle |
| `PoolUse.CheckoutGets` | src/pool.rs:240-262 | an open pool gives the VM returned last that is alive; without one it spawns exactly while fewer than `max_size` are in use |
| `PoolUse.NothingToBeHad` | src/pool.rs:133-205 | with no VM to be had, `checkout` sleeps, `try_checkout` and an expired timeout give up, and a woken checkout sleeps again |
| `PoolUse.GivenBack` | src/pool.rs:265-291 | a returned VM is last in the idle list exactly if the pool is open and warm and the VM alive; its place is free and one sleeper, if any, is woken |
| `PoolUse.Discarded` | src/pool.rs:294-302 | a killed VM is dead and in no list, and its place is free |
| `PoolUse.ClosesAll` | src/pool.rs:221-231 | a shutdown empties the idle list, wakes every sleeper and leaves VMs in use alone |
| `PoolUse.WarmReuse` | src/pool.rs:53-54 | a warm pool gives the VM just returned to the next checkout |
| `PoolUse.ColdKeepsNone` | src/pool.rs:50-51 | a cold pool never has an idle VM |
| `PoolObjects.IslePool.TakeAliveIsle` | src/pool.rs:305-312 | the loop pops dead VMs and returns the last live one |
| `PoolObjects.IslePool.TryAcquire` | src/pool.rs:240-262 | takes a live idle VM, or room for a new one only below `max_size`, or reports that there is neither |
| `PoolObjects.IslePool.ReturnIsle` | src/pool.rs:265-291 | a returned VM goes to the idle list exactly when the pool is open, warm and the VM alive, and one waiter is notified |
| `PoolObjects.IslePool.DiscardIsle` | src/pool.rs:294-302 | shuts the VM down, frees its place and notifies one waiter |
| `PoolObjects.IslePool.DecActive` | src/pool.rs:333-340 | frees the place of a failed spawn and notifies one waiter |
| `PoolObjects.IslePool.Shutdown` | src/pool.rs:221-231 | closes the pool, shuts every idle VM down and notifies all |
| `Hub.CancelLatency` | src/hub.rs:161-178 | from any counters, also across the 32-bit wrap, a cancelled token raises within 17 checks' worth of count events |
| `Hub.LatencyInInstructions` | src/hub.rs:119-139 | for any step from 1 to 1000 that is at most 17 * (1000 + step - 1) instructions |
| `Hub.PromptElsewhere` | src/hub.rs:161-178 | outside the poll chunk it raises at the next check |
| `Hub.RaisedExactly` | src/hub.rs:161-178 | over any events, a cancelled token raises if and only if a check lands outside the poll chunk or there are more checks than may still be put off, of 16 in all |
| `Hub.RaisedForCause` | src/hub.rs:161-180 | over any events, with tokens cancelled or not at each, one raises if and only if its own token is cancelled, its check is due and it cannot be put off; an event of a token that is not cancelled leaves the count of deferrals as it was |
| `Hub.EveryThousand` | src/hub.rs:119-139 | a check comes with the first hook event at which 1000 instructions are complete, not earlier |
| `Hub.CallbackPeriod` | src/hub.rs:189-203 | a callback for every n-th instruction runs at its ceil(n / step)-th count event and not before, if and only if that count fits 32 bits |
| `Hub.CallbackEvery` | src/hub.rs:189-203 | when the count fits, the callback runs at every multiple of that period and at no other event |
| `Hub.MissedCallback` | src/hub.rs:189-203 | an input for which it does not: n = 2^32 - 1 with a hook event every 1000 instructions |
| `HubObjects.HookHub.Install` | src/hub.rs:119-139 | the loop takes exactly the smallest count trigger, of 1000 and the entries' (0 counting as 1) |
| `HubObjects.HookHub.Dispatch` | src/hub.rs:161-207 | one count event: the check, which raises only for a cancelled token; when nothing is raised, the count of every entry, and the entries that are due run in order |
| `TaskHandles.DeliveredAtMostOnce` | src/select.rs:102-126 | over every run of joins, competing cases and undone takes, at most one joiner gets the result, and it is the one produced |
| `TaskHandles.CancelledIsTrue` | src/task_lib.rs:281-320 | over every run, a joiner gets `CANCELLED` if and only if the body was dropped, or failed under a cancelled token |
| `TaskHandles.DeliversWhatTheBodyLeft` | src/task_lib.rs:280-299 | over every run, whoever joined got exactly the values that the body returned or the error it raised in that run, unless it was cut short |
| `TaskHandles.FirstJoinWaits` | src/task_lib.rs:308-320 | the first join of a registered task waits, finished or not; every later join or case finds the handle joined and changes nothing |
| `TaskHandles.WaiterGets` | src/task_lib.rs:308-320 | when the task is done, whoever waits for it gets what its body left |
| `TaskHandles.CaseGets` | src/select.rs:102-116 | a case on a finished task that nobody joined takes what its body left |
| `TaskHandles.UntakeRejoins` | src/select.rs:118-126 | an undone take leaves the handle joinable, and the next join or case gets the same result |
| `TaskObjects.Registry.Insert` | src/task_lib.rs:301-304 | a task gets an identifier never used before |
| `TaskObjects.Registry.StartJoin` | src/task_lib.rs:21-25 | a second join is refused; the first marks the handle joined |
| `TaskObjects.Registry.EndJoin` | src/task_lib.rs:308-320 | the end of a join forgets the task and takes its result |
| `TaskObjects.TaskArm.PollTake` | src/select.rs:88-101 | a task case is ready exactly when the task is done, and takes the result unless the handle was joined |
| `TaskObjects.TaskArm.Untake` | src/select.rs:119-126 | gives back exactly what was taken: result, registration and joined flag |
| `TaskObjects.TaskArm.TakeAndGiveBack` | src/task_lib.rs:645-659 | a case whose handler was never entered leaves result, registry and handle as they were |

## Left out

- Lua, mlua, value conversion and the C hook: values are opaque identifiers and a conversion inside a poll does not re-enter a channel.
- Channels to the host (`HostSink`, permits) and the receive arms of host channels inside a select: the first rests on tokio's semaphore; of the second, `FanOut` models the wake-up protocol with plain receives.
- Tickers: `push_newest` discards values by design, so conservation does not apply to them.
- Reading cases and options from Lua tables (`read_cases`), error shapes and argument checks.
- The round-robin turn of a select: `start` is an arbitrary position.
- tokio's scheduler, timers and `LocalSet`: the next task to run is any task, and time is a clock that any step may advance.
- `src/async_pool.rs`: the same capacity logic; its wake-ups rest on a `Notify` that stores at most one permit, and no progress is claimed.
- Panics, aborts and futures dropped before they drained (`AbortOnDrop`): the theorems about scopes assume that bodies are awaited.
- Termination of a drain in every run: a task that keeps spawning into its own running scope is not bounded by the program (`ScopeDrain` shows that the drain can always finish).
- Order of several put-backs in flight at once.
- Waiting on a `Notify` (`CancelToken::cancelled`, `TaskState::wait_done`): a step that needs the flag is enabled once the flag is set.
- Preemption (`want_yield`), and what user callbacks of the hook do: one that raises ends the event before later entries are counted.
- `FanOut.NoLostWakeup`: the registered tasks are a set and the receiver's waker one flag that is stored and taken atomically, as tokio's `AtomicWaker` promises.
- `Tokens.CancelMissesNobody`: the memory model is sequentially consistent, and a token dies in one step once nothing holds it.
- `ScopeObjects.Scope.Spawn`: the token of a task that is out of time is cancelled but not entered in its parent's child list, where it would be a dead entry.
- `CancelTokens.CancelToken.Cancel`: one thread, and no entry of a child list is dead; `Tokens` has the threads and the dead entries, `TokenChildren` the sweep.
- `CancelTokens.CancelToken.ChildToken`: one thread; the lock around the check and the push is in `Tokens`, the sweep before the push in `TokenChildren`.
- `ScopeDeadlines.DrainingCancelsAll`: a cancel flags a whole subtree in one step of `Scopes`; a host thread in the middle of `Inner::cancel` (src/hook.rs:73-83) leaves grandchildren unflagged for a moment, in which a concurrent cancel of the same token returns at once. `Tokens` has those interleavings, and their end.
- `HubObjects.HookHub.Dispatch`: count events only (line, call and return triggers are single flags), and what a callback does.
- `PoolObjects.IslePool.TryAcquire`: what happens outside the lock (spawning, waiting) is in the steps of `Pool`; a poisoned lock is not part of this model.
