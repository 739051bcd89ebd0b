# FreeRTOS kernel protocols, modelled and proved in Dafny

A model of the FreeRTOS kernel under `Drives/FreeRTOS-Kernel-main`, in the single-core configuration of
`APP/FreeRTOSConfig.h` (preemption on, time slicing off, mutexes on, queue sets, abort-delay and timer pend calls off),
and proofs of what its protocols promise. `dafny verify dfyconfig.toml` checks everything.

| file | models |
|---|---|
| ListSpec.dfy, KernelList.dfy | list.c: what a list is as a sequence with a roving index, and the pointer code on the heap proved against it |
| TaskLists.dfy, ReadyOrder.dfy | families of lists in which every task is on at most one, the one that its container pointer names; the order in which the tasks of a list have their turns, over runs |
| ModularTime.dfy, TimeOut.dfy | ticks that wrap at an arbitrary modulus, related to unbounded instants; timeouts and fixed-rate delays |
| Scheduler.dfy | tasks.c: ready, delayed, suspended and event lists, the tick, suspension of the scheduler, task selection, priority changes |
| KernelRuns.dfy | runs of the kernel: a delayed task sleeps through any sequence of calls and is readied by the right one; no ready task is overtaken |
| Priorities.dfy, MutexAccounting.dfy, PriorityInheritance.dfy | the priority fields of a task; runs over many mutexes with timeouts and priority changes; exact inheritance in the sub-model with one mutex per task |
| QueueStorage.dfy | queue.c: the byte ring of a queue as a bounded sequence of items |
| QueueLock.dfy | queue.c: blocking, queue locks and interrupts as an interleaved machine with program counters, and the lock code itself |
| Rings.dfy, StreamBuffer.dfy, StreamInterleaved.dfy | stream_buffer.c: byte ring and message frames, one call at a time and with every load, copy and index update interleaved |
| EventGroup.dfy, Barrier.dfy | event_groups.c: flags, waiting, the release traversal, and the rendezvous as a reusable barrier |
| Timers.dfy | timers.c: the daemon, its two lists, stale commands and backlogged reloads |

## How the pieces are stated

Time. The modulus `m` of the tick type is arbitrary; `m - 1` is portMAX_DELAY. Code computes with wrapped ticks only. Ghost
fields hold the unbounded instants (`now`, `epoch`, wake times, command times), and contracts are stated on these.

State. Objects that the source updates in place are classes whose methods follow the source branch by branch; loops keep
their invariants and are proved to end. Each method is proved to keep the invariant of its class (`Kernel.Inv`,
`TimerDaemon.Inv`, `KernelList.Valid`, `Storage.Valid`, `StreamBuffer.Valid`) and to have the stated effect.

Effects. What a function of a machine or a class computes is stated a second time without it: what is left in a queue, which
flags are set, whose priority is what, in which order the tasks of a list have their turns. The members named `Exact` do this
step by step, and laws over runs add it up (`QueueStorage.Storage.Serve`, `QueueLocks.MessageBalance`,
`EventGroups.SleepsUntilMet`, `MutexAccounting.HolderStaysImportant`, `StreamInterleaved.DecidedIsPublished`,
`KernelRuns.ReadiedWaitsItsTurn`, `Barrier.RoundsAreComplete`, `Timers.CountsFromCommand`).

Interleaving. `QueueLocks`, `StreamInterleaved`, `Barrier`, `EventGroups`, `MutexAccounting` and `PriorityInheritance` hold state
machines. Critical sections are single steps, interrupts are steps that may come between any two, and the main theorems
quantify over all runs.

## What the proofs found

- `vListInsertEnd` (list.c:105-136) makes the new item the last to be selected only while the index is at the sentinel.
  Otherwise the item that the index is on comes after it. The documentation at include/list.h:346-355 says it is always last
  (`ListSpec.InsertEndOrder`).
- So the index decides whether a task that becomes ready waits for all others of its priority. It comes before one of them
  if and only if the index is on that one (`ReadyOrder.LatecomerExact`). That need not be the task selected last: when the
  running task leaves its list, the index steps back onto the item in front of it (list.c:225-240), which may never have been
  selected, and then a task that becomes ready later is selected before it (`ReadyOrder.LatecomerOvertakes`).
- `xTaskCheckForTimeOut` (tasks.c:5597-5663) compares the overflow counts for inequality only. When two or more wraps lie
  between checks, the tick is smaller than at entry and the wrapped elapsed time is short, an overdue timeout is missed.
  `TimeOuts.CheckExact` gives the exact condition, `TimeOuts.TwoWrapsHideATimeOut` an instance.
- A wait of 0 ticks begun at the last tick of an epoch would still be on the current delayed list at the wrap and break the
  assertion at tasks.c:270 (`Scheduler.DelayPlacementExact`). The queue calls never ask for it: a check that has not expired
  leaves at least one tick (`Scheduler.Kernel.CheckForTimeOut`).
- A timer command with an unknown identifier takes an active timer off its list and leaves it marked active
  (`Timers.TimerDaemon.ProcessCommand`).
- `vTaskPrioritySet` on a task with an inherited priority records the new base priority in the event item although the task
  keeps running at the inherited one (tasks.c:2934-2941). `Priorities.SetBaseEventExact` says exactly when the event item
  stands for the priority that the task runs at, `Priorities.SetBaseHidesInheritance` gives a task for which it does not.
- The assertion at tasks.c:6886, that a task whose inherited priority is taken back is not the running task, can fail: a task
  that waits for a mutex which it holds itself may be in the waiting list at its inherited priority, and nobody accounts for
  that priority when it times out. `MutexAccounting.AssertionsExact` gives the exact condition and
  `MutexAccounting.HolderTimesOutOnItself` a run.
- Overwriting a binary semaphore that is already full passes the assertions at queue.c:960-962 and counts it to 2
  (`QueueStorage.CountInRange` for the exact condition, `QueueStorage.OverwriteFullSemaphore` for the instance).
- The assertions at queue.c:282 and 297 on the 8-bit queue locks hold in all runs if and only if there are at most 127 tasks
  (`QueueLocks.LocksFitExactly`).

## Model

| member | source | states |
|---|---|---|
| ListSpec.SortedInsertStable | Drives/FreeRTOS-Kernel-main/list.c:139-213 | a sorted insert keeps the order and lands behind every equal value and in front of only larger ones |
| ListSpec.InsertPositionUnique | Drives/FreeRTOS-Kernel-main/list.c:192-198 | the insert position is the only one with everything before it at most the value and the next value larger |
| ListSpec.NextSelectsFront | Drives/FreeRTOS-Kernel-main/include/list.h:286-299 | one step of the roving index selects the front of the upcoming order and rotates that order |
| ListSpec.RoundRobin | Drives/FreeRTOS-Kernel-main/include/list.h:269-299 | n successive selections from a list of n items visit each item exactly once, wherever the index stands |
| ListSpec.InsertEndOrder | Drives/FreeRTOS-Kernel-main/list.c:105-136 | an item inserted at the end is selected after all others when the index is at the sentinel, and otherwise just before the item that the index is on (the documentation says always last) |
| ListSpec.RemoveKeepsOrder | Drives/FreeRTOS-Kernel-main/list.c:217-247 | removing any item, the indexed one included, drops it from the upcoming order and neither skips nor repeats another |
| ListSpec.RemovedFromOrder | Drives/FreeRTOS-Kernel-main/list.c:217-247 | items are unique, so what a removed item leaves behind is the upcoming order without it |
| ListSpec.WithoutIsRemoveAt | Drives/FreeRTOS-Kernel-main/list.c:217-247 | removing by item and removing by place agree when items are unique |
| KernelLists.KernelList.constructor | Drives/FreeRTOS-Kernel-main/list.c:49-86 | an initialised list is a well-formed empty ring whose index is the sentinel |
| KernelLists.KernelList.LinkedAfterSplice | Drives/FreeRTOS-Kernel-main/list.c:121-133 | splicing one item in keeps every forward and backward link of the ring |
| KernelLists.KernelList.LinkedAfterUnlink | Drives/FreeRTOS-Kernel-main/list.c:225-242 | unlinking one item keeps every forward and backward link of the rest |
| KernelLists.KernelList.InsertEnd | Drives/FreeRTOS-Kernel-main/list.c:105-136 | the heap ring stays well formed and its sequence grows by the item just in front of the index |
| KernelLists.KernelList.Search | Drives/FreeRTOS-Kernel-main/list.c:153-199 | the search loop ends, for every value including portMAX_DELAY, at the last item that is not larger |
| KernelLists.KernelList.LinkAfter | Drives/FreeRTOS-Kernel-main/list.c:201-210 | the four pointer writes put the item behind the cursor and nothing else moves |
| KernelLists.KernelList.Insert | Drives/FreeRTOS-Kernel-main/list.c:139-213 | the heap insert is the stable sorted insert on the sequence of items |
| KernelLists.KernelList.Remove | Drives/FreeRTOS-Kernel-main/list.c:217-247 | removal keeps the ring well formed, moves the index off the removed item, clears its container and returns the new length |
| KernelLists.KernelList.NextEntry | Drives/FreeRTOS-Kernel-main/include/list.h:286-299 | the pointer walk returns the first item of the upcoming order and rotates the order, skipping the sentinel |
| TaskLists.DetachOk | Drives/FreeRTOS-Kernel-main/list.c:217-247 | taking a task off its list keeps every task on at most one list, the one that its container names; the turns of its list lose that task and nothing else |
| TaskLists.PutEndOk | Drives/FreeRTOS-Kernel-main/list.c:105-136 | adding an unlinked task at the end keeps lists and containers consistent; the turns of the list end with the new task while the index is at the sentinel, and otherwise with the new task and then the task that the index is on |
| TaskLists.PutAtOk | Drives/FreeRTOS-Kernel-main/list.c:139-213 | adding an unlinked task in the middle keeps lists and containers consistent |
| TaskLists.OffTurns | Drives/FreeRTOS-Kernel-main/list.c:217-247 | a task that leaves a list, even the one that the index is on, leaves the turns of all others alone |
| TaskLists.AtEndTurns | Drives/FreeRTOS-Kernel-main/list.c:105-136 | a task that joins a list gets the last turn, except that the task that the index is on comes after it |
| TaskLists.OrderOfOthers | Drives/FreeRTOS-Kernel-main/list.c:105-247 | when the turns of a list are kept but for some tasks, any two others stay in the same order |
| ReadyOrder.NobodyIsOvertaken | Drives/FreeRTOS-Kernel-main/include/list.h:269-299 | whatever joins and leaves a ready list, of two tasks on it the one that comes first is selected first |
| ReadyOrder.ReadiedWaitsItsTurn | Drives/FreeRTOS-Kernel-main/tasks.c:284-290 | a task that becomes ready is selected only after every other task of its priority has had its turn or has gone, apart from the one that the index is on |
| ReadyOrder.LatecomerExact | Drives/FreeRTOS-Kernel-main/list.c:121-130 | a task that becomes ready comes before one that is ready already if and only if the index of the list is on that one |
| ReadyOrder.LatecomerOvertakes | Drives/FreeRTOS-Kernel-main/list.c:121-240 | a run in which that one has never been selected: the running task blocks, the index steps back onto a waiting task, and a task that becomes ready later is selected before it |
| ModularTime.WrappedSum | Drives/FreeRTOS-Kernel-main/tasks.c:8633 | wrapped addition of ticks is the tick of the sum, for any modulus |
| ModularTime.WrappedDifference | Drives/FreeRTOS-Kernel-main/tasks.c:5611 | wrapped subtraction of the ticks of instants less than a cycle apart is their distance |
| TimeOuts.CheckExact | Drives/FreeRTOS-Kernel-main/tasks.c:5597-5663 | a finite timeout is reported exactly when the true elapsed time has reached the wait, if and only if at most one wrap separates the checks, or the tick has passed the entry tick, or the wrapped elapsed time suffices; otherwise the remaining ticks shrink by exactly the elapsed time |
| TimeOuts.TwoWrapsHideATimeOut | Drives/FreeRTOS-Kernel-main/tasks.c:5635-5650 | a concrete check two wraps after the entry that misses an overdue timeout |
| TimeOuts.MaxDelayNeverExpires | Drives/FreeRTOS-Kernel-main/tasks.c:5624-5632 | a retry loop that waits for portMAX_DELAY ticks never ends by timeout, at whatever moments it checks, and goes round with the entry time and the ticks that it began with |
| TimeOuts.DeadlineIsConstant | Drives/FreeRTOS-Kernel-main/tasks.c:5585-5663 | over any number of checks that do not expire, entry time plus remaining ticks stays the original deadline, which has not passed |
| TimeOuts.ExpiresAtDeadline | Drives/FreeRTOS-Kernel-main/queue.c:1533-1655 | a retry loop gives up if and only if some check comes at or after the original deadline |
| TimeOuts.DelayUntilExact | Drives/FreeRTOS-Kernel-main/tasks.c:2376-2461 | with the last wake less than a cycle ago, the task delays if and only if the next wake time is later than now, and then for exactly the difference |
| TimeOuts.FixedRate | Drives/FreeRTOS-Kernel-main/tasks.c:2395-2430 | the k-th wake target is the tick of first + k * increment, whatever the delays in between |
| Scheduler.DelayPlacementExact | Drives/FreeRTOS-Kernel-main/tasks.c:8589-8664 | the wrapped comparison sends a wait to the list of the epoch in which it ends; every wait on the current list can be served before the wrap, except a wait of 0 ticks begun at the last tick |
| Scheduler.Kernel.constructor | Drives/FreeRTOS-Kernel-main/tasks.c:6077-6106 | the initial lists with the idle task ready satisfy the invariant of the kernel |
| Scheduler.Kernel.AddToReady | Drives/FreeRTOS-Kernel-main/tasks.c:284-290 | the task joins the ready list of its priority, and the turns of that list end with it while the index is at the sentinel and otherwise with it and then the task that the index is on; the top priority bound stays above every ready list in use |
| Scheduler.Kernel.UnlinkState | Drives/FreeRTOS-Kernel-main/list.c:217-247 | the task leaves its list, whose turns lose that task and nothing else; all other lists are as before |
| Scheduler.Kernel.AddCurrentToDelayed | Drives/FreeRTOS-Kernel-main/tasks.c:8589-8664 | the running task moves to the suspended, current or overflow list that its true wake time calls for, its wake time is now + ticks, and no other task's wake time, wake tick or priority changes |
| Scheduler.Kernel.ResetNextUnblock | Drives/FreeRTOS-Kernel-main/tasks.c:6525-6543 | the next unblock time is recomputed as a lower bound of all wake ticks on the current list |
| Scheduler.Kernel.HeadWakesFirst | Drives/FreeRTOS-Kernel-main/tasks.c:4798-4810 | the head of a delayed list has the smallest wake tick of all tasks on it |
| Scheduler.Kernel.NobodyLeftAtWrap | Drives/FreeRTOS-Kernel-main/tasks.c:269-270 | the assertion that the current delayed list is empty at the wrap always holds |
| Scheduler.Kernel.SwitchDelayedLists | Drives/FreeRTOS-Kernel-main/tasks.c:264-276 | the two lists exchange roles, the overflow count follows the epoch, and every task is on the list of its epoch again |
| Scheduler.Kernel.UnblockHead | Drives/FreeRTOS-Kernel-main/tasks.c:4798-4832 | the head of the delayed list leaves both its lists for the ready list of its priority |
| Scheduler.Kernel.UnblockDue | Drives/FreeRTOS-Kernel-main/tasks.c:4774-4866 | the unblocking loop ends and has readied exactly the tasks whose wait is over, and tells whether one of them preempts the running task |
| Scheduler.Kernel.CountTick | Drives/FreeRTOS-Kernel-main/tasks.c:4752-4960 | a counted tick readies exactly the due tasks, moves nobody else, and asks for a switch if and only if a yield is pending or a woken task is more important |
| Scheduler.Kernel.IncrementTick | Drives/FreeRTOS-Kernel-main/tasks.c:4735-4982 | a tick interrupt is counted or pended, never lost, in either state of the scheduler |
| Scheduler.Kernel.DelayedListsExact | Drives/FreeRTOS-Kernel-main/tasks.c:8589-8664 | a task blocked with a timeout is on the current list if and only if it wakes before the wrap and on the overflow list if and only if in the next epoch, under the tick of the wake time that only its own blocking call sets; both lists are sorted and the next unblock time bounds the current one |
| Scheduler.Kernel.WokenOnTime | Drives/FreeRTOS-Kernel-main/tasks.c:4774-4817 | a task is woken at the very tick its wait ends, or at the next tick after a wait of 0 |
| Scheduler.Kernel.SuspendAll | Drives/FreeRTOS-Kernel-main/tasks.c:3847-3890 | nesting of suspensions is counted and nothing else changes |
| Scheduler.Kernel.DrainPending | Drives/FreeRTOS-Kernel-main/tasks.c:4054-4099 | exactly the pending tasks become ready and the pending list is empty |
| Scheduler.Kernel.ReplayTicks | Drives/FreeRTOS-Kernel-main/tasks.c:4112-4141 | replaying the pended ticks readies exactly the tasks due at the resulting time |
| Scheduler.Kernel.ResumeAll | Drives/FreeRTOS-Kernel-main/tasks.c:4021-4167 | the outermost resume counts every pended tick, readies exactly the pending tasks and those due meanwhile, and reports a yield if and only if one is pending or a woken task is more important |
| Scheduler.Kernel.SkipEmptyList | Drives/FreeRTOS-Kernel-main/tasks.c:200-204 | while some task is ready, an empty ready list at the bound is never the lowest one, so the search ends and its assertion holds |
| Scheduler.Kernel.HighestReady | Drives/FreeRTOS-Kernel-main/tasks.c:197-204 | the search loop finds the highest ready list in use |
| Scheduler.Kernel.SwitchContext | Drives/FreeRTOS-Kernel-main/tasks.c:5119-5202 | the selected task is ready and no ready task is more important; it is the first of the upcoming order of its list; while suspended only a yield is noted |
| Scheduler.Kernel.InsertEvent | Drives/FreeRTOS-Kernel-main/tasks.c:5306-5334 | the waiting task goes behind all waiters with smaller or equal event values |
| Scheduler.Kernel.PlaceOnEventList | Drives/FreeRTOS-Kernel-main/tasks.c:5306-5333 | the running task leaves the ready list for the right blocked list and goes behind all waiters with smaller or equal event values; nothing about any other task changes |
| Scheduler.Kernel.RemoveFromEventList | Drives/FreeRTOS-Kernel-main/tasks.c:5404-5494 | the first waiter becomes ready, or pending while suspended, and a yield is requested if and only if it is more important than the running task |
| Scheduler.Kernel.Delay | Drives/FreeRTOS-Kernel-main/tasks.c:2468-2490 | a plain delay blocks until exactly now + ticks and never indefinitely; nothing about any other task changes |
| Scheduler.Kernel.DelayUntil | Drives/FreeRTOS-Kernel-main/tasks.c:2376-2461 | the task blocks until exactly previous + increment if that is later than now, and the stored wake time moves on by the increment in any case; nothing about any other task changes |
| KernelRuns.SleeperDue | Drives/FreeRTOS-Kernel-main/tasks.c:4774-4817 | readying the due tasks readies a sleeping task if and only if its time has come, and otherwise leaves it asleep until the same instant |
| KernelRuns.Perform | Drives/FreeRTOS-Kernel-main/tasks.c:3847-6959 | every kernel call and every tick interrupt lets a delayed task sleep on, or readies it if the call takes the clock to its wake time; and it leaves the turns of all tasks alone that it neither names nor selects, putting those it readies behind all others but the one that the index is on |
| KernelRuns.Run | Drives/FreeRTOS-Kernel-main/tasks.c:3847-6959 | the same over any sequence of calls, with the clock counted exactly |
| KernelRuns.ReadiedInTime | Drives/FreeRTOS-Kernel-main/tasks.c:4735-4982 | once the scheduler runs and the raised ticks have reached the wake time, one call has readied the task: the tick that is the wake time, or the resumption that counted it; before that call the task was never ready |
| KernelRuns.DelayIsKept | Drives/FreeRTOS-Kernel-main/tasks.c:2468-2513 | a task that delays at instant T for d ticks is readied by the tick that reaches T + d, over any sequence of kernel calls in between |
| KernelRuns.NobodyIsOvertaken | Drives/FreeRTOS-Kernel-main/tasks.c:3847-5202 | in every run of kernel calls, a ready task that comes before another one of its priority is chosen before it, unless one of the two blocks or changes priority first |
| KernelRuns.ReadiedBehind | Drives/FreeRTOS-Kernel-main/tasks.c:4774-4866 | a tick, a resumption or an event puts the task that it readies behind all others of its priority but the one that the index is on |
| KernelRuns.ReadiedWaitsItsTurn | Drives/FreeRTOS-Kernel-main/tasks.c:4735-5202 | in every run a task that a tick, a resumption or an event readies is chosen only after every other task that was ready at its priority has been chosen, or has blocked or changed priority, apart from the one that the index is on |
| Scheduler.Kernel.SetTimeOutState | Drives/FreeRTOS-Kernel-main/tasks.c:5585-5594 | the recorded wraps and tick stand for the present instant |
| Scheduler.Kernel.CheckForTimeOut | Drives/FreeRTOS-Kernel-main/tasks.c:5597-5663 | measured with the kernel's own counters, a wait set at most one wrap ago is over if and only if its deadline has passed, and otherwise keeps its deadline with some ticks left |
| Scheduler.Kernel.ChangePriority | Drives/FreeRTOS-Kernel-main/tasks.c:2944-2966 | a task whose priority fields change stays on its list unless it is ready, when it moves to the list of the new priority |
| Scheduler.Kernel.PriorityInherit | Drives/FreeRTOS-Kernel-main/tasks.c:6649-6745 | the holder runs at the maximum of its own and the waiter's priority, on the right ready list |
| Scheduler.Kernel.PriorityDisinherit | Drives/FreeRTOS-Kernel-main/tasks.c:6752-6839 | the holder count drops by one, and the priority returns to base exactly when the last mutex is given back |
| Scheduler.Kernel.PriorityDisinheritAfterTimeout | Drives/FreeRTOS-Kernel-main/tasks.c:6846-6959 | the sole holder drops to the maximum of its base priority and the remaining waiters', and the assertion on the way fails if and only if the holder is the running task and its priority has to change |
| Scheduler.Kernel.PrioritySet | Drives/FreeRTOS-Kernel-main/tasks.c:2806-2998 | the base priority is set, an inherited one survives unless exceeded, and a yield is required exactly in the two cases named |
| Priorities.InheritExact | Drives/FreeRTOS-Kernel-main/tasks.c:6649-6745 | inheritance yields the maximum, keeps the account, and its result tells whether the holder's base priority is below the waiter's |
| Priorities.DisinheritExact | Drives/FreeRTOS-Kernel-main/tasks.c:6752-6839 | the inherited priority is kept until the last mutex is given, and a switch is requested if and only if the priority drops |
| Priorities.DisinheritAfterTimeoutExact | Drives/FreeRTOS-Kernel-main/tasks.c:6846-6959 | only a task that holds a single mutex drops, to the maximum of base and remaining waiters |
| Priorities.SetBaseExact | Drives/FreeRTOS-Kernel-main/tasks.c:2909-2941 | setting the priority sets the base priority, keeps the account, and records the new base priority in an event item that is not in use |
| Priorities.SetBaseEventExact | Drives/FreeRTOS-Kernel-main/tasks.c:2909-2941 | after a change of the base priority the event item stands for the priority that the task runs at if and only if nothing was inherited or the new priority is at least the inherited one; otherwise it understates it |
| Priorities.SetBaseHidesInheritance | Drives/FreeRTOS-Kernel-main/tasks.c:2909-2941 | a concrete task that goes on at an inherited priority while its event item records a lower one |
| MutexAccounting.HolderHolds | Drives/FreeRTOS-Kernel-main/tasks.c:6857-6859 | a task named as holder of some mutex has a positive count |
| MutexAccounting.AssertionsExact | Drives/FreeRTOS-Kernel-main/tasks.c:6763-6886 | in every accounted state the assertions on held mutexes hold, and the assertion that a holder about to drop is not the running task fails if and only if a task times out on its own, only mutex at a priority that neither its base priority nor a remaining waiter accounts for |
| MutexAccounting.HolderTimesOutOnItself | Drives/FreeRTOS-Kernel-main/tasks.c:6881-6886 | a run of five steps in which that assertion fails |
| MutexAccounting.StepKeepsInv | Drives/FreeRTOS-Kernel-main/queue.c:1659-1881 | take, give, wait, timeout, recursive calls and priority changes keep count, base priority and recursion accounts (what each step does to priorities is stated by the members named Exact) |
| MutexAccounting.WaitExact | Drives/FreeRTOS-Kernel-main/tasks.c:6649-6745 | in every enabled wait the holder's new priority is the maximum of its old one and the present priority of the waiter, inherited or not, and nothing else changes |
| MutexAccounting.TakeExact | Drives/FreeRTOS-Kernel-main/queue.c:1692-1740 | taking a mutex, recursive or not, changes nobody's priority; the first take adds one to the taker's count and makes it the holder, a nested one adds a recursion |
| MutexAccounting.GiveExact | Drives/FreeRTOS-Kernel-main/queue.c:759-815 | the give that lets go returns the giver to its base priority if and only if it held no other mutex; any other give leaves every priority alone |
| MutexAccounting.TimeOutExact | Drives/FreeRTOS-Kernel-main/tasks.c:6846-6959 | a timeout after an inheritance lowers the holder to the maximum of its base priority and the remaining waiters' if and only if it holds that mutex only; any other timeout changes nothing |
| MutexAccounting.SetPriorityExact | Drives/FreeRTOS-Kernel-main/tasks.c:2909-2941 | the base priority is the one set, an inherited priority survives unless exceeded, and no other task changes |
| MutexAccounting.NobodyElseLowered | Drives/FreeRTOS-Kernel-main/tasks.c:6649-6959 | no step lowers a task except its own last give, a timeout on the only mutex it holds, and a lower priority set for it |
| MutexAccounting.HolderStaysImportant | Drives/FreeRTOS-Kernel-main/tasks.c:6649-6959 | in all runs with any number of mutexes, the holder is at least as important as a task was when it blocked on its mutex, until one of those three happens to the holder |
| MutexAccounting.AccountsStayRight | Drives/FreeRTOS-Kernel-main/tasks.c:6649-6959 | in all runs: held count = number of mutexes naming the task, priority at least base, base priority when none is held, and an assertion fails exactly at a timeout on an own mutex as described above |
| MutexAccounting.GivesUnwindTakes | Drives/FreeRTOS-Kernel-main/queue.c:759-815 | the mutex stays with its holder through all gives but the one that balances the first take |
| MutexAccounting.TakesNest | Drives/FreeRTOS-Kernel-main/queue.c:818-865 | a nested take only counts |
| MutexAccounting.RecursiveRoundTrip | Drives/FreeRTOS-Kernel-main/queue.c:759-865 | n takes and n gives of a free recursive mutex leave it free and the task's count and base priority as before |
| PriorityInheritance.TakerLeads | Drives/FreeRTOS-Kernel-main/queue.c:1692-1740 | whoever takes a free mutex is at least as important as everybody still waiting for it |
| PriorityInheritance.JoinedList | Drives/FreeRTOS-Kernel-main/tasks.c:5306-5334 | the waiter list stays sorted by importance when a task joins it |
| PriorityInheritance.HeadLeads | Drives/FreeRTOS-Kernel-main/tasks.c:5411-5427 | the front of the waiter list is the most important waiter |
| PriorityInheritance.TakeKeepsInv | Drives/FreeRTOS-Kernel-main/queue.c:1692-1740 | taking a free mutex keeps inheritance exact |
| PriorityInheritance.BlockKeepsInv | Drives/FreeRTOS-Kernel-main/queue.c:1775-1807 | blocking on a held mutex makes the holder's priority the exact maximum again |
| PriorityInheritance.GiverStaysOnTop | Drives/FreeRTOS-Kernel-main/queue.c:1043-1074 | when giving requests no switch, the giver is still a most important ready task |
| PriorityInheritance.GiveKeepsInv | Drives/FreeRTOS-Kernel-main/queue.c:1043-1074 | giving returns the giver to its base priority and leaves a woken task that leads the remaining waiters |
| PriorityInheritance.StepsAreDefined | Drives/FreeRTOS-Kernel-main/queue.c:1775-1807 | only the state of the mutex decides which step a task can take |
| PriorityInheritance.EnabledExact | Drives/FreeRTOS-Kernel-main/queue.c:1509-1656 | which steps the running task can take, as conditions on its status, its mutexes and the holder |
| PriorityInheritance.TakeExact | Drives/FreeRTOS-Kernel-main/queue.c:1692-1740 | the running task becomes the holder and holds one mutex; nothing else changes |
| PriorityInheritance.BlockExact | Drives/FreeRTOS-Kernel-main/queue.c:1775-1807 | the holder is raised to the maximum of its own and the waiter's priority, and the waiter goes behind everybody at least as important and in front of everybody less important |
| PriorityInheritance.GiveExact | Drives/FreeRTOS-Kernel-main/queue.c:1043-1074 | the giver is back at its base priority, the first waiter and nobody else is woken, and there is a context switch if and only if the woken task is more important than the giver now is or, when nobody waits, the giver has lost priority |
| PriorityInheritance.RestExact | Drives/FreeRTOS-Kernel-main/tasks.c:5404-5494 | sleeping, yielding and waking change no priority and no mutex, and a wakeup switches if and only if the woken task is more important than the running one |
| PriorityInheritance.InheritanceIsExact | Drives/FreeRTOS-Kernel-main/tasks.c:6649-6839 | in all runs of the sub-model: a holder's priority is the maximum of base and waiters, a free mutex with waiters has a woken ready task that leads them, and the running task is a most important ready one |
| PriorityInheritance.NoInversion | Drives/FreeRTOS-Kernel-main/tasks.c:6649-6839 | in all runs of the sub-model, while a task waits for a mutex that is free or whose holder is ready, whoever runs is at least as important as the waiting task, at its base priority if it holds no mutex |
| QueueLocks.PostKeeps | Drives/FreeRTOS-Kernel-main/queue.c:277-300 | one more message or slot with one wakeup or one count keeps everything offered spoken for |
| QueueLocks.RepeatKeeps | Drives/FreeRTOS-Kernel-main/queue.c:2449-2463 | a wakeup without a new offer (an overwritten message) keeps it too |
| QueueLocks.RetryKeeps | Drives/FreeRTOS-Kernel-main/queue.c:1535-1563 | a woken task that tries again gives up its claim together with what it takes, or finds nothing offered |
| QueueLocks.PassOnKeeps | Drives/FreeRTOS-Kernel-main/queue.c:1914-1946 | a peeking task passes its wakeup on |
| QueueLocks.DecideKeeps | Drives/FreeRTOS-Kernel-main/queue.c:1611-1616 | a task decides to wait only when nothing is offered |
| QueueLocks.PlaceKeeps | Drives/FreeRTOS-Kernel-main/queue.c:1616 | the decision turns into a place in the list, at any position |
| QueueLocks.UnlockKeeps | Drives/FreeRTOS-Kernel-main/queue.c:2497-2614 | replaying the counted wakeups, up to the cap at the number of tasks, leaves every offer claimed or nobody waiting |
| QueueLocks.TrySendKeepsInv | Drives/FreeRTOS-Kernel-main/queue.c:969-1111 | the sending critical section keeps both promises |
| QueueLocks.TryReceiveKeepsInv | Drives/FreeRTOS-Kernel-main/queue.c:1533-1600 | the receiving critical section keeps both promises (ReceiveExact says what it takes) |
| QueueLocks.TryPeekKeepsInv | Drives/FreeRTOS-Kernel-main/queue.c:1906-1980 | the peeking critical section keeps both promises |
| QueueLocks.SendExact | Drives/FreeRTOS-Kernel-main/queue.c:969-1111 | a send succeeds if and only if there is room, then adds exactly one message and wakes the first waiting receiver; otherwise it moves no message, wakes nobody and goes on to block if and only if it may |
| QueueLocks.OverwriteExact | Drives/FreeRTOS-Kernel-main/queue.c:969-1111 | an overwriting send always succeeds, adds a message if and only if there is none, and wakes the first waiting receiver |
| QueueLocks.ReceiveExact | Drives/FreeRTOS-Kernel-main/queue.c:1533-1600 | a receive succeeds if and only if there is a message, then takes exactly one and wakes the first waiting sender; otherwise it moves no message, wakes nobody and goes on to block if and only if it may |
| QueueLocks.PeekExact | Drives/FreeRTOS-Kernel-main/queue.c:1906-1980 | a peek succeeds if and only if there is a message, leaves it and wakes the next waiting receiver; otherwise it wakes nobody and goes on to block if and only if it may |
| QueueLocks.IsrExact | Drives/FreeRTOS-Kernel-main/queue.c:1167-2136 | an interrupt sends or receives on the same terms, and wakes a waiter of the other side or counts in its lock |
| QueueLocks.UnlockExact | Drives/FreeRTOS-Kernel-main/queue.c:2497-2614 | an unlock wakes as many of the first waiters as were counted, or all of them, and no other, and leaves the side unlocked |
| QueueLocks.OtherStepsExact | Drives/FreeRTOS-Kernel-main/queue.c:1605-1655 | no other step moves a message, and a call goes through them in the order of the source, deciding to wait if and only if nothing is offered at the second look |
| QueueLocks.SidesExact | Drives/FreeRTOS-Kernel-main/queue.c:1605-1655 | what the other steps do to the waiting lists and locks of the two sides, and that nothing else touches them |
| QueueLocks.ChecksKeepInv | Drives/FreeRTOS-Kernel-main/queue.c:1605-1655 | the checks under the lock keep both promises |
| QueueLocks.PlaceKeepsInv | Drives/FreeRTOS-Kernel-main/tasks.c:5306-5333 | insertion into the waiting list keeps both promises |
| QueueLocks.IsrSendKeepsInv | Drives/FreeRTOS-Kernel-main/queue.c:1167-1335 | an interrupt that sends between any two steps, also between the decision to wait and the insertion, keeps both promises |
| QueueLocks.IsrReceiveKeepsInv | Drives/FreeRTOS-Kernel-main/queue.c:2039-2136 | an interrupt that receives between any two steps keeps both promises |
| QueueLocks.TimedOutKeepsInv | Drives/FreeRTOS-Kernel-main/tasks.c:4816-4832 | a waiter removed by its timeout keeps both promises |
| QueueLocks.StepKeepsInv | Drives/FreeRTOS-Kernel-main/queue.c:949-2136 | every step of every task and interrupt keeps both promises |
| QueueLocks.LocksInRange | Drives/FreeRTOS-Kernel-main/queue.c:277-300 | in every state of every run the locks count at most as many wakeups as there are tasks, and both are unlocked while nobody has suspended the scheduler |
| QueueLocks.LocksFitExactly | Drives/FreeRTOS-Kernel-main/queue.c:277-300 | the assertions that an 8-bit lock is not at its largest value hold in all runs if and only if there are at most 127 tasks |
| QueueLocks.LockRun | Drives/FreeRTOS-Kernel-main/queue.c:277-300 | interrupts that come while a task holds the queue locked count each lock up to any number of rounds within the number of tasks |
| QueueLocks.MessageBalance | Drives/FreeRTOS-Kernel-main/queue.c:949-2136 | in every state of every run the number of messages is the number of sends and fresh overwrites that succeeded less the number of receives that succeeded, by tasks and interrupts, and at most the length |
| QueueLocks.NoLostWakeup | Drives/FreeRTOS-Kernel-main/queue.c:1509-1656 | in all runs with the queue unlocked, a sleeping receiver implies messages <= receivers woken and not yet retried, a sleeping sender implies free slots <= senders woken, and every woken task is on its way |
| QueueLocks.NoLostWakeupWhileLocked | Drives/FreeRTOS-Kernel-main/queue.c:258-300 | the same with the wakeups still counted in the locks, up to the cap |
| QueueLocks.SleepersMissNothing | Drives/FreeRTOS-Kernel-main/queue.c:2497-2614 | when every task is idle or asleep in a list, sleeping receivers mean an empty queue and sleeping senders a full one |
| QueueLocks.Queue.LockQueue | Drives/FreeRTOS-Kernel-main/queue.c:258-270 | both locks are set unless they are set already |
| QueueLocks.Queue.UnlockQueue | Drives/FreeRTOS-Kernel-main/queue.c:2497-2614 | the two replay loops compute the specified wakeups and release both locks |
| QueueLocks.Queue.UnlockTx | Drives/FreeRTOS-Kernel-main/queue.c:2505-2581 | the loop wakes one receiver for each counted message until nobody waits |
| QueueLocks.Queue.UnlockRx | Drives/FreeRTOS-Kernel-main/queue.c:2583-2613 | the loop wakes one sender for each counted slot until nobody waits |
| QueueLocks.Queue.SendFromIsr | Drives/FreeRTOS-Kernel-main/queue.c:1167-1335 | a send from an interrupt stores, and wakes or counts according to the lock; it fails exactly when full and not overwriting |
| QueueLocks.Queue.ReceiveFromIsr | Drives/FreeRTOS-Kernel-main/queue.c:2039-2136 | a receive from an interrupt takes, and wakes or counts according to the lock; it fails exactly when empty |
| QueueStorage.WriteSlotIsMod | Drives/FreeRTOS-Kernel-main/queue.c:2421-2446 | write index = (read index + 1 + count) mod length |
| QueueStorage.Storage.constructor | Drives/FreeRTOS-Kernel-main/queue.c:303-325 | a new queue is a valid empty ring |
| QueueStorage.Storage.CopyToQueue | Drives/FreeRTOS-Kernel-main/queue.c:2393-2473 | while the queue stays valid, a send to the back appends the item, one to the front prepends it and an overwrite replaces everything by it; it stays valid exactly if a full semaphore is not overwritten |
| QueueStorage.Storage.Send | Drives/FreeRTOS-Kernel-main/queue.c:969-1010 | a send succeeds if and only if there is room or it overwrites, and then puts its item at the back, at the front, or in place of everything; otherwise nothing changes |
| QueueStorage.Storage.Serve | Drives/FreeRTOS-Kernel-main/queue.c:949-1600 | first in, first out over any sequence of sends to the back and receives: the items received followed by the items still waiting are the items that were waiting followed by those accepted, in order; a send is accepted exactly if there is room and a receive succeeds exactly if something waits |
| QueueStorage.FirstInFirstOut | Drives/FreeRTOS-Kernel-main/queue.c:949-1600 | the same of any such sequence of uses and answers, independently of the ring |
| QueueStorage.CountInRange | Drives/FreeRTOS-Kernel-main/queue.c:2393-2473 | the number of items stays within the length if and only if a full semaphore is not overwritten |
| QueueStorage.OverwriteFullSemaphore | Drives/FreeRTOS-Kernel-main/queue.c:960-982 | a binary semaphore that has been given and is then overwritten counts two |
| QueueStorage.Storage.CopyFromQueue | Drives/FreeRTOS-Kernel-main/queue.c:2476-2494 | the item copied out is the oldest |
| QueueStorage.Storage.Receive | Drives/FreeRTOS-Kernel-main/queue.c:1537-1546 | receive pops the front, and an empty queue stays empty |
| QueueStorage.Storage.Peek | Drives/FreeRTOS-Kernel-main/queue.c:1914-1925 | peek reads the front and puts the read position back |
| QueueStorage.Storage.StoreItem | Drives/FreeRTOS-Kernel-main/queue.c:2423 | copying one item changes its slot and no other |
| QueueStorage.Storage.RetreatRead | Drives/FreeRTOS-Kernel-main/queue.c:2437-2447 | the read offset wraps below the start to the last slot |
| QueueStorage.Storage.AdvanceWrite | Drives/FreeRTOS-Kernel-main/queue.c:2424-2433 | the write offset wraps at the end to the first slot |
| StreamBuffers.DecodeEncode | Drives/FreeRTOS-Kernel-main/stream_buffer.c:1016-1027 | a stored message length is loaded back unchanged if it fits its variable |
| StreamBuffers.FirstFrame | Drives/FreeRTOS-Kernel-main/stream_buffer.c:1292-1293 | the front of the contents is the length of the oldest message followed by that message |
| StreamBuffers.FramesInjective | Drives/FreeRTOS-Kernel-main/stream_buffer.c:1003-1053 | contents parse into frames in only one way |
| StreamBuffers.FramesAppend | Drives/FreeRTOS-Kernel-main/stream_buffer.c:1022-1050 | a new frame goes behind all others |
| StreamBuffers.StreamBuffer.constructor | Drives/FreeRTOS-Kernel-main/stream_buffer.c:1590-1630 | a new buffer is empty |
| StreamBuffers.StreamBuffer.BytesInBuffer | Drives/FreeRTOS-Kernel-main/stream_buffer.c:1569-1587 | the wrapped subtraction is the number of bytes stored |
| StreamBuffers.StreamBuffer.SpacesAvailable | Drives/FreeRTOS-Kernel-main/stream_buffer.c:754-788 | the wrapped subtraction is the number of free cells less the one kept free |
| StreamBuffers.StreamBuffer.WriteBytes | Drives/FreeRTOS-Kernel-main/stream_buffer.c:1479-1522 | the one or two copies write exactly the cells from the given index on, around the end, and return the index behind them |
| StreamBuffers.StreamBuffer.ReadBytes | Drives/FreeRTOS-Kernel-main/stream_buffer.c:1525-1566 | the one or two copies read exactly those cells |
| StreamBuffers.StreamBuffer.WriteBehind | Drives/FreeRTOS-Kernel-main/stream_buffer.c:256-269 | bytes written behind an index continue the contents up to there and change nothing before |
| StreamBuffers.StreamBuffer.AppendFrame | Drives/FreeRTOS-Kernel-main/stream_buffer.c:1022-1050 | length and payload are published together by one update of the head; an empty message is not published |
| StreamBuffers.StreamBuffer.WriteMessage | Drives/FreeRTOS-Kernel-main/stream_buffer.c:1003-1053 | a message is stored whole or not at all; a stream takes as many bytes as fit |
| StreamBuffers.StreamBuffer.HasMessage | Drives/FreeRTOS-Kernel-main/stream_buffer.c:1187-1201 | more bytes than a length prefix means a message, and otherwise the buffer is empty, as the assertion says |
| StreamBuffers.StreamBuffer.ReadFrame | Drives/FreeRTOS-Kernel-main/stream_buffer.c:1279-1331 | a receive into a big enough buffer yields exactly the oldest message; a too small one changes nothing |
| StreamBuffers.StreamBuffer.ReadStream | Drives/FreeRTOS-Kernel-main/stream_buffer.c:1305-1328 | a stream read yields the oldest bytes, as many as wanted and available, and drops them |
| StreamBuffers.StreamBuffer.Send | Drives/FreeRTOS-Kernel-main/stream_buffer.c:808-940 | a send without waiting appends the whole message or nothing, or as many stream bytes as fit |
| StreamBuffers.StreamBuffer.Receive | Drives/FreeRTOS-Kernel-main/stream_buffer.c:1056-1169 | a receive without waiting delivers the oldest message or the oldest bytes, and leaves the rest in order |
| StreamBuffers.StreamBuffer.NextMessageLength | Drives/FreeRTOS-Kernel-main/stream_buffer.c:1172-1213 | the length query is 0 exactly when there is no message and otherwise the length of the oldest |
| StreamInterleaved.RoomIsThere | Drives/FreeRTOS-Kernel-main/stream_buffer.c:766-783 | the room computed from a stale tail is the room there was when the tail was loaded |
| StreamInterleaved.SizeExact | Drives/FreeRTOS-Kernel-main/stream_buffer.c:754-788 | a size computed with the same tail before and after is exactly the room there was at the second load, and otherwise it is computed anew |
| StreamInterleaved.DecideExact | Drives/FreeRTOS-Kernel-main/stream_buffer.c:1003-1053 | a message is copied if and only if it fits as a whole, an exact fit included; a stream copies as many bytes as are offered and fit |
| StreamInterleaved.CopyInKeepsInv | Drives/FreeRTOS-Kernel-main/stream_buffer.c:1499-1507 | copying a byte, in any order and at any moment, keeps what the ring holds |
| StreamInterleaved.PublishKeepsInv | Drives/FreeRTOS-Kernel-main/stream_buffer.c:1043-1050 | the update of the head adds exactly the bytes copied, at a frame boundary |
| StreamInterleaved.PublishExact | Drives/FreeRTOS-Kernel-main/stream_buffer.c:1043-1050 | the update of the head publishes exactly what was copied and changes nothing else |
| StreamInterleaved.DecidedIsPublished | Drives/FreeRTOS-Kernel-main/stream_buffer.c:1003-1053 | in all interleavings, a send decided with enough room is published whole, and of a stream as many bytes as there was room for, whatever the reader does meanwhile |
| StreamInterleaved.NextMessage | Drives/FreeRTOS-Kernel-main/stream_buffer.c:1289-1302 | when a head beyond the tail was loaded, the next message is there in full and its length decodes correctly |
| StreamInterleaved.UseLengthKeepsInv | Drives/FreeRTOS-Kernel-main/stream_buffer.c:1292-1319 | the count derived from the stored length and the stale byte count is the length of the next message |
| StreamInterleaved.ChooseExact | Drives/FreeRTOS-Kernel-main/stream_buffer.c:1056-1169 | a receive that finds no more than a length prefix returns; otherwise a stream gives as many bytes as are wanted and available, and a message buffer reads the length first |
| StreamInterleaved.UseLengthExact | Drives/FreeRTOS-Kernel-main/stream_buffer.c:1292-1319 | the oldest message is read as a whole if and only if the receiver's buffer can hold it |
| StreamInterleaved.AnswerIsExact | Drives/FreeRTOS-Kernel-main/stream_buffer.c:1185-1193 | the length query reports the length of the next message while the writer is active |
| StreamInterleaved.ConsumeKeepsInv | Drives/FreeRTOS-Kernel-main/stream_buffer.c:1321-1328 | the update of the tail consumes exactly the bytes copied out |
| StreamInterleaved.ConsumeExact | Drives/FreeRTOS-Kernel-main/stream_buffer.c:1321-1328 | a finished receive delivers what was sent behind the bytes already consumed |
| StreamInterleaved.ChosenIsDelivered | Drives/FreeRTOS-Kernel-main/stream_buffer.c:1305-1328 | in all interleavings, a stream receive delivers the oldest bytes, as many as were wanted and found available, whatever the writer does meanwhile |
| StreamInterleaved.StepKeepsInv | Drives/FreeRTOS-Kernel-main/stream_buffer.c:754-1566 | every load, copy and index update of the writer and the reader keeps the invariant |
| StreamInterleaved.NothingLostOrInvented | Drives/FreeRTOS-Kernel-main/stream_buffer.c:808-1169 | in all interleavings: bytes accepted = bytes delivered followed by the ring contents; in a message buffer the messages delivered are the first ones sent and the ring parses as the frames of the rest |
| StreamInterleaved.CopiesNeverMeet | Drives/FreeRTOS-Kernel-main/stream_buffer.c:1479-1566 | in all interleavings the writer writes only free cells and the reader reads only filled ones, so they never touch the same cell |
| StreamInterleaved.StaleCountsAreLowerBounds | Drives/FreeRTOS-Kernel-main/stream_buffer.c:754-788 | in all interleavings a computed room or byte count never exceeds what is there |
| StreamInterleaved.NeverOutOfRange | Drives/FreeRTOS-Kernel-main/stream_buffer.c:754-788 | no index computation underflows or leaves the ring |
| StreamInterleaved.DeliversOldest | Drives/FreeRTOS-Kernel-main/stream_buffer.c:1279-1331 | a completed receive delivers exactly the oldest undelivered message |
| StreamInterleaved.TooSmallChangesNothing | Drives/FreeRTOS-Kernel-main/stream_buffer.c:1298-1303 | a receive into a too small buffer leaves everything as it was |
| EventGroups.RequestRoundTrip | Drives/FreeRTOS-Kernel-main/event_groups.c:580-607 | packing a request into an item value and testing it there is the wait condition itself |
| EventGroups.ClearingNeverSatisfies | Drives/FreeRTOS-Kernel-main/event_groups.c:472-501 | clearing flags satisfies nobody |
| EventGroups.ReleasedValue | Drives/FreeRTOS-Kernel-main/event_groups.c:621-626 | a released task reads back exactly the flags that released it |
| EventGroups.TraversalPartition | Drives/FreeRTOS-Kernel-main/event_groups.c:577-633 | the traversal splits the waiters into released and remaining and loses nobody |
| EventGroups.TraversalMembers | Drives/FreeRTOS-Kernel-main/event_groups.c:577-633 | exactly the waiters satisfied by the flags before clearing are released |
| EventGroups.ClearMaskIsUnion | Drives/FreeRTOS-Kernel-main/event_groups.c:609-637 | the mask to be cleared is exactly the union of the released clear-on-exit requests; SetBitsFlags says that it is cleared |
| EventGroups.ConditionMeans | Drives/FreeRTOS-Kernel-main/event_groups.c:777-815 | the condition of a waiter, flag by flag: all of the flags waited for, or one of them |
| EventGroups.SetBitsFlags | Drives/FreeRTOS-Kernel-main/event_groups.c:577-640 | after setting bits a flag is set if and only if it was set before or by the call and no waiter that the call released wanted it cleared |
| EventGroups.SetBitsWaiters | Drives/FreeRTOS-Kernel-main/event_groups.c:577-633 | the waiters left are exactly those not satisfied before clearing, in their order, and exactly the released ones are given the flags that released them |
| EventGroups.WaitBitsExact | Drives/FreeRTOS-Kernel-main/event_groups.c:339-403 | a wait whose condition is met returns the flags and clears those waited for if and only if asked to; an impatient one changes nothing; any other joins the waiters and is released exactly by flags that meet its condition |
| EventGroups.SyncExact | Drives/FreeRTOS-Kernel-main/event_groups.c:203-248 | a sync sets the caller's flags; a complete rendezvous returns all flags and clears those of the rendezvous, an impatient call returns the flags left, and any other waits for all of them |
| EventGroups.FinishExact | Drives/FreeRTOS-Kernel-main/event_groups.c:417-469 | a released task returns the flags stored for it and changes no flag; a timed-out one returns the present flags and clears those waited for if and only if asked to and its condition is met after all |
| EventGroups.ClearAndTimeoutExact | Drives/FreeRTOS-Kernel-main/event_groups.c:472-501 | clearing takes exactly the given flags away, and a timeout takes exactly its task off the waiters |
| EventGroups.SetBitsKeepsInv | Drives/FreeRTOS-Kernel-main/event_groups.c:547-647 | after setting bits no remaining waiter is satisfied |
| EventGroups.WaitBitsKeepsInv | Drives/FreeRTOS-Kernel-main/event_groups.c:312-403 | after a wait call no waiter is satisfied |
| EventGroups.SyncKeepsInv | Drives/FreeRTOS-Kernel-main/event_groups.c:185-248 | after a sync call no waiter is satisfied |
| EventGroups.TimeoutKeepsInv | Drives/FreeRTOS-Kernel-main/tasks.c:4816-4832 | after a timeout no waiter is satisfied and the task is off the list |
| EventGroups.FinishKeepsInv | Drives/FreeRTOS-Kernel-main/event_groups.c:417-459 | after a call has finished no waiter is satisfied |
| EventGroups.ReleasedCallerSeesItsCondition | Drives/FreeRTOS-Kernel-main/event_groups.c:312-469 | a task that blocks and is then released returns flags that satisfy its condition, and it is released exactly when they do |
| EventGroups.RunKeepsInv | Drives/FreeRTOS-Kernel-main/event_groups.c:185-647 | in all runs of calls no task sleeps on a satisfied condition |
| EventGroups.SleepsUntilMet | Drives/FreeRTOS-Kernel-main/event_groups.c:312-647 | in all runs of calls, a task that has blocked sleeps exactly until the first call that sets bits which meet its condition, and that call releases it with the flags that met it |
| EventGroups.PassStep | Drives/FreeRTOS-Kernel-main/event_groups.c:577-633 | one turn of the traversal loop visits the next original waiter |
| EventGroups.PassEnd | Drives/FreeRTOS-Kernel-main/event_groups.c:577-637 | the completed traversal has visited each original waiter once |
| EventGroups.EventGroup.Visit | Drives/FreeRTOS-Kernel-main/event_groups.c:577-633 | a matching waiter leaves the list during the pass and is stamped with the flags |
| EventGroups.EventGroup.SetBits | Drives/FreeRTOS-Kernel-main/event_groups.c:547-647 | the loop over the changing list computes the specified release and clears afterwards (SetBitsFlags and SetBitsWaiters say what that is) |
| EventGroups.EventGroup.ClearBits | Drives/FreeRTOS-Kernel-main/event_groups.c:472-501 | the flags before clearing are returned |
| EventGroups.EventGroup.WaitBits | Drives/FreeRTOS-Kernel-main/event_groups.c:312-403 | a wait returns at once, or blocks with its request packed |
| EventGroups.EventGroup.Sync | Drives/FreeRTOS-Kernel-main/event_groups.c:185-248 | a sync sets, tests and either returns with the flags cleared or blocks |
| EventGroups.EventGroup.Unblocked | Drives/FreeRTOS-Kernel-main/event_groups.c:417-469 | an unblocked task returns the flags that released it, or tests once more after a timeout |
| Barrier.LastArrival | Drives/FreeRTOS-Kernel-main/event_groups.c:207-221 | the last arrival returns at once, completes the round, releases all with every flag in the result, leaves the flags of the barrier clear and changes no other count |
| Barrier.EarlyArrival | Drives/FreeRTOS-Kernel-main/event_groups.c:222-247 | any other arrival adds its flags, joins the sleepers, wakes nobody and changes nothing else |
| Barrier.EnterKeepsInv | Drives/FreeRTOS-Kernel-main/event_groups.c:185-248 | entering keeps the barrier invariant, also when a task re-enters before others have run |
| Barrier.LeaveKeepsInv | Drives/FreeRTOS-Kernel-main/event_groups.c:250-309 | leaving keeps the barrier invariant and returns every flag |
| Barrier.LeaveExact | Drives/FreeRTOS-Kernel-main/event_groups.c:250-309 | a task that leaves returns with every flag of the barrier, and nothing changes for any other participant |
| Barrier.NobodyLeavesEarly | Drives/FreeRTOS-Kernel-main/event_groups.c:185-309 | in all runs nobody has left more rounds than any participant has entered |
| Barrier.RoundsAreComplete | Drives/FreeRTOS-Kernel-main/event_groups.c:185-309 | in all runs the rounds completed are the least number of calls begun by any participant, exactly those who have begun more are asleep, and whoever is not asleep has returned or is free to return |
| Timers.ClassifyExact | Drives/FreeRTOS-Kernel-main/timers.c:890-931 | by modular tests alone a timer is processed now if and only if its expiry is not in the future, and otherwise goes to the list of the epoch in which it expires |
| Timers.NoDrift | Drives/FreeRTOS-Kernel-main/timers.c:695-741 | a queued auto-reload timer that is not overdue has had one callback for every whole period and waits for the next multiple |
| Timers.AskStands | Drives/FreeRTOS-Kernel-main/timers.c:934-1086 | what an order asked of a timer stands until another order names that timer |
| Timers.TimerDaemon.constructor | Drives/FreeRTOS-Kernel-main/timers.c:1114-1160 | dormant timers and empty lists satisfy the invariant, and every timer does what it was asked to do: nothing |
| Timers.TimerDaemon.Insert | Drives/FreeRTOS-Kernel-main/timers.c:890-931 | the timer joins the list of its epoch behind all timers that expire no later and in front of all that expire later, or has expired; no other timer moves or changes |
| Timers.TimerDaemon.Reload | Drives/FreeRTOS-Kernel-main/timers.c:695-711 | the reload loop ends with the timer queued for the first expiry after now and one callback for each expiry passed |
| Timers.TimerDaemon.ProcessExpired | Drives/FreeRTOS-Kernel-main/timers.c:714-741 | the timer of the epoch that expires first is reloaded without drift, with one callback for each whole period, or becomes dormant with its one callback; no other timer is touched |
| Timers.TimerDaemon.DrainCurrent | Drives/FreeRTOS-Kernel-main/timers.c:1098-1106 | the loop over the finished epoch ends with its list empty; running auto-reload timers go on running and nothing but expiries has happened to any timer |
| Timers.TimerDaemon.SwitchLists | Drives/FreeRTOS-Kernel-main/timers.c:1089-1111 | every expiry of the finished epoch is processed before the lists exchange roles, and nothing else has happened to any timer |
| Timers.TimerDaemon.Sample | Drives/FreeRTOS-Kernel-main/timers.c:867-887 | a wrap is noticed if and only if the epoch has ended, for samples less than a cycle apart, and nothing but expiries happens to any timer |
| Timers.TimerDaemon.NothingOverdueIsOnTime | Drives/FreeRTOS-Kernel-main/timers.c:778-837 | when nothing is overdue every active auto-reload timer has had exactly floor((N - C) / p) callbacks |
| Timers.TimerDaemon.HeadIsEarliest | Drives/FreeRTOS-Kernel-main/timers.c:840-864 | the head of a timer list is the earliest expiry |
| Timers.TimerDaemon.ProcessTimerOrBlock | Drives/FreeRTOS-Kernel-main/timers.c:778-837 | the daemon blocks if and only if the clock has not wrapped and no timer has expired; then nothing has changed, every auto-reload timer is on time and it sleeps exactly until the first expiry or the end of the epoch; otherwise the earliest expiry has been processed or, at a wrap, every expiry of the finished epoch |
| Timers.TimerDaemon.BlockTime | Drives/FreeRTOS-Kernel-main/timers.c:803-817 | the block time reaches exactly to the first expiry of the epoch, or to its end if there is none (at tick 0 it is then 0) |
| Timers.TimerDaemon.Restart | Drives/FreeRTOS-Kernel-main/timers.c:997-1026 | a start or reset, however stale, leaves an auto-reload timer queued after now and a one-shot timer active if and only if it has not expired, counting from the command; other timers are untouched |
| Timers.TimerDaemon.Repace | Drives/FreeRTOS-Kernel-main/timers.c:1034-1047 | a changed period counts from now; other timers are untouched |
| Timers.TimerDaemon.MakeDormant | Drives/FreeRTOS-Kernel-main/timers.c:1028-1032 | a stopped timer is inactive and off the lists, with its history; other timers are untouched |
| Timers.TimerDaemon.Prepare | Drives/FreeRTOS-Kernel-main/timers.c:946-984 | the timer is taken off its list before the clock is sampled, and is not touched by the expiries that the sample may process |
| Timers.TimerDaemon.ProcessCommand | Drives/FreeRTOS-Kernel-main/timers.c:934-1086 | start and reset make the timer count from the command and active unless it is a one-shot timer already expired, stop only makes it dormant, a changed period counts from now, and every other timer has only been served; afterwards the timer is active if and only if it is on exactly one list, except after an unknown command to an active timer |
| Timers.TimerDaemon.Execute | Drives/FreeRTOS-Kernel-main/timers.c:934-1086 | after an order every timer does what the orders so far ask of it |
| Timers.TimerDaemon.ProcessReceivedCommands | Drives/FreeRTOS-Kernel-main/timers.c:934-1086 | after the queue has been emptied every timer does what the orders so far ask of it, and a timer that none of them names has only been served |
| Timers.TimerDaemon.ObedientIsPunctual | Drives/FreeRTOS-Kernel-main/timers.c:778-837 | when nothing is overdue, a timer asked at C to run with period p has had exactly floor((N - C) / p) callbacks, or at most the first of them if it is a one-shot timer |
| Timers.TimerDaemon.TakeTurn | Drives/FreeRTOS-Kernel-main/timers.c:766-781 | a turn of the loop looks at the timers and then empties the queue, and blocks only with all timers punctual |
| Timers.TimerDaemon.TimerTask | Drives/FreeRTOS-Kernel-main/timers.c:744-781 | in any number of turns, whatever the delays of daemon and commands, the daemon sleeps exactly when there is nothing to do and then every timer is punctual, every timer does at each turn what it has been asked to do, and those not named have only been served |
| Timers.CountsFromCommand | Drives/FreeRTOS-Kernel-main/timers.c:744-1086 | when the daemon sleeps, a timer started, reset or changed at C with period p and not commanded since has had exactly floor((N - C) / p) callbacks and waits for the next multiple, or if it is a one-shot timer has had its one callback exactly if its period is over |
| Timers.DoesAsTold | Drives/FreeRTOS-Kernel-main/timers.c:934-1086 | many turns later a stopped timer is dormant, and a started one counts from its command, runs on or has had its one callback |
| Timers.LeftAlone | Drives/FreeRTOS-Kernel-main/timers.c:744-1086 | from turn to turn a timer that no order names keeps its settings and the instant it counts from; a dormant one has no callback, a running auto-reload one runs on, a one-shot one has at most its one callback, not before it is due |

## Left out

- Scheduler.Kernel: task control blocks and timers are entries of maps keyed by task or timer number, and lists are sequences of these numbers; pointer aliasing is captured in KernelLists only.
- Scheduler.Kernel.PlaceOnEventList: inserts the delayed item before the event item, while the source inserts the event item first; the two go to different lists and the scheduler is suspended, so no step can see the order.
- Scheduler.Kernel.ReplayTicks: collects the request to yield over the loop, and ResumeAll writes it to the flag once, where the source sets the flag in every turn inside one critical section.
- Scheduler.Kernel.AddCurrentToDelayed: requires that a wait of 0 ticks does not begin at the last tick of an epoch, for the reason given above.
- Scheduler.Kernel.InsertEvent: says where a waiter is put, not that the list is sorted, because the source rewrites the item value of a blocked task in place when its priority changes.
- Scheduler.Kernel.SwitchContext: states what is selected; that the running task always is a highest priority ready task is claimed only in the sub-model of PriorityInheritance, because queue.c uses the yield request of disinheritance only when nobody waits.
- Scheduler.Kernel.CheckForTimeOut: xNumOfOverflows is unbounded in the model, a signed machine word in the source.
- Scheduler.Kernel: vTaskSuspend, vTaskResume, task creation and deletion, the unordered and restricted event list calls, and notifications.
- KernelRuns.DelayIsKept: a task resumed or woken early by vTaskResume or xTaskAbortDelay is outside the model; the calls in the sequence are the methods of Scheduler.Kernel, and one that its caller may not make in the present state is passed over.
- QueueLocks.StepKeepsInv: one queue; xQueueGenericReset wakes only one sender and vTaskDelete can discard a woken task, so neither is a step; the time check is a free choice there (TimeOuts has its arithmetic), and waiters may be inserted at any position.
- QueueLocks.NoLostWakeup: the number of tasks is fixed during a run, and an overwriting send is one to a queue whose items have a size (QueueStorage has the semaphore). The locks are unbounded in the machine and 8-bit in the source; LocksFitExactly says when that makes a difference.
- MutexAccounting.AccountsStayRight: which waiter times out, and at which recorded priority, is a free choice, so that its runs include all of the source's and more; a run goes on after a failed assertion, as it does where assertions are compiled out.
- MutexAccounting.StepKeepsInv: one call is one step; interrupts do not use mutexes, holders are not deleted, and recursive mutexes are used through the recursive calls only.
- PriorityInheritance.InheritanceIsExact: tasks hold at most one mutex, wait without timeout, and nobody sets priorities; taking and blocking are each one step, since the scheduler is suspended around the insertion.
- StreamBuffers.StreamBuffer.Send: the waiting part of send and receive (notifications, trigger levels) is outside the model; StreamInterleaved lets the writer size up again any number of times instead.
- StreamInterleaved.StepKeepsInv: one writer and one reader, plain stream and message buffers, no reset during use; batching buffers compare the trigger level differently on the two sides.
- EventGroups.EventGroup: event words are sets of bit numbers (union, intersection and difference for the bit operators), with the control bits of 64-bit ticks.
- EventGroups: deletion of an event group and the calls from interrupts, which are deferred to the timer task.
- Barrier.NobodyLeavesEarly: participants have distinct flags, wait without timeout, and nobody else uses the group.
- Timers.TimerDaemon.TimerTask: the clock is sampled at least once in a cycle and a command is handled within a cycle of its issue, as the wrapped comparisons of the source need; commands are known ones to created timers.
- Timers.TimerDaemon: callbacks are counted, not run; the command queue is a parameter; the delete command covers statically allocated timers, because the dynamic one frees the memory.
- Allocation, stack setup, context-switch assembly, port macros, multi-core branches, MPU wrappers, tickless idle, tracing, run-time statistics, queue sets, queue registry, co-routines and the peripheral drivers: compiled out here, hardware, or plain input and output.
