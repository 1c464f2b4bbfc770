# Verified model of the FR30xx kernel, heap and audio mixing code

This project models the stateful C code at the heart of the FR30xx SDK in Dafny and proves what it is
relied on for: the scheduler's tick and delay code, deadlines, the software timer service, queues and
their locks, mutexes with priority inheritance, stream and message buffers, event groups, the intrusive
list below all of these, the SDK's own heap allocator and PCM mixing ring, and its CRC-32.

`dafny verify dfyconfig.toml` checks everything.

## How it is built

Most components come as a pair. A specification module describes the component without the tricks the C
code plays (unbounded time instead of wrapped ticks, sequences instead of pointers, true positions instead
of wrapped cursors), as a state machine of functions on values; invariants and run properties are proved
there by induction over arbitrary runs. An implementation module holds a class with the C variables and
methods that follow the C functions branch by branch, loops included; each method is proved to do exactly
what the specification step says.

| component | specification | implementation |
|---|---|---|
| list.c | `ListSpec` in Lists.dfy | `Lists` in Lists.dfy |
| tasks.c: ticks, delays, suspension, choice | KernelSpec.dfy, KernelRuns.dfy, KernelPlaces.dfy, KernelSwitches.dfy | Kernel.dfy |
| tasks.c: event lists | EventLists.dfy | Kernel.dfy |
| tasks.c: deadlines | Deadlines.dfy | Deadlines.dfy, Kernel.dfy |
| timers.c | TimerSpec.dfy, TimerCommands.dfy | Timers.dfy |
| queue.c | QueueSpec.dfy, QueueTurns.dfy | Queues.dfy |
| queue.c, tasks.c: mutexes | MutexSpec.dfy, MutexCalls.dfy | Mutexes.dfy |
| stream_buffer.c | StreamSpec.dfy | StreamBuffers.dfy |
| event_groups.c | EventSpec.dfy, EventCalls.dfy | Events.dfy |
| heap.c | HeapBlocks.dfy | Heap.dfy |
| audio_decoder.c | MixSpec.dfy, MixMoves.dfy | Mixer.dfy |
| crc32.c | Crc32.dfy, Crc32Detects.dfy | Crc32.dfy |

Ticks.dfy (wrapped ticks and epochs), TwoLists.dfy (one queue of true times as two wrapped lists, shared by
the scheduler and the timers), Turns.dfy (wrapped cursors of a ring) and Basics.dfy are shared.

A run is a sequence of states whose first state satisfies the component's invariant and whose every next
state is the effect of an enabled step; that all later states satisfy the invariant is proved, and so is that
the initial state of every component does (the `FreshGood` lemmas and the constructors). Where tasks
and interrupts interleave (queues, stream buffers, mutexes) every critical section, and for stream buffers
every single access, is a step of its own, and any order of steps is a run.

Configuration: 32-bit ticks, preemption and time slicing, generic priority selection, task suspension and
mutexes on, queue sets and delay abortion off, heap debugging on (so a free header is 20 bytes and a used
one 12), initial tick count 0. Conditions the C code asserts are preconditions.

## What came out

- Blocking for 0 ticks is safe except in the last tick of an epoch, where the task would still be on the
  delayed list when the lists change places, against the assertion in `taskSWITCH_DELAYED_LISTS`
  (`Kernel.EmptyAtSwitch`). None of the callers modelled here does it: a check that does not report expiry
  leaves at least one tick (`Deadlines.TimeOut.Check`), `xTaskDelayUntil` blocks for at least one
  (`Kernel.Scheduler.DecideDelay`), and the timer service asks for 0 ticks in the first tick of an epoch only
  (`Timers.Daemon.ProcessTimerOrBlock`).
- `xTaskCheckForTimeOut` misreads the elapsed time only if a full turn or more has gone by, the wrapped
  remainder is below the wait, and either the tick is smaller than the stamp or the overflow counts agree
  (`Deadlines.Misread`, with an input in `Deadlines.LateCheckMissesExpiry`); in all other cases it is exact.
- `xTaskDelayUntil` is exact if and only if less than a turn has passed since the reference time, or the
  wrapped remainder has reached the increment (an input on which it is not: `Deadlines.LateCallSleeps`).
- The limit of a save into the mixing ring is decremented twice, so a writer stays two cells short of a full
  turn, not one.
- `audio_decoder_stop` takes frames back when the decoder is ahead of the write cursor and of every other
  decoder: what it mixed beyond the furthest one left is overwritten by that one's next frames. The exact
  condition is `MixSpec.StopKeepsVoices`. At the end of the input the stop comes before the write cursor is
  moved, so a decoder that is alone by then loses the whole of its last call
  (`MixSpec.LoneDecoderLosesLastCall`, `MixSpec.LastFrameLost`; `MixSpec.LastMixKeepsVoices` gives the exact
  condition as it can be seen before the call). `MixSpec.ListenersHearTheMix` speaks of all that was played, in
  runs without such a step; `MixSpec.ListenersHearTheVoices` covers every run, for what stops have left.
- The heap's used count is the sum of the live block sizes if and only if start and size of the arena are
  multiples of 4. Otherwise, from the first allocation on, it includes the bytes lost to alignment, at most 6
  (`Heap.Arena.constructor`, `Heap.Arena.Alloc`, `Heap.Arena.Free`; `Heap.UnalignedArena` loses 5).
- Overwriting a full semaphore makes the queue count one more than its length (`Queues.OverwrittenSemaphore`);
  every other send keeps the queue in order (`Queues.MessageQueue.CopyDataToQueue`). As the queue then does not
  count as full, a blocking sender goes round its loop without blocking until its time is up or an item is taken
  (`QueueTurns.OverfilledSpins`).
- A mutex holder is at least as urgent as every task that blocked during its holding, in every run
  (`MutexSpec.HolderIsUrgent`), but not always as urgent as waiters left over from an earlier holding: a task that
  gives a mutex and takes it back before the woken waiter runs can be less urgent than the waiters it takes over
  (`MutexSpec.RetakeLeavesWaiter`). Taking over a more urgent waiter is the only step that breaks the order
  (`MutexSpec.TakeUrgent`); in runs without it a holder is at least as urgent as all its waiters
  (`MutexSpec.HolderIsMostUrgent`). A waiter that gives up after a timeout mends it for a holder of one mutex, also
  by raising the holder to a waiter of an earlier holding (`MutexSpec.LeaveMakesUrgent`).

## Model

| member | source | states |
|---|---|---|
| ListSpec.InsertKeepsSorted | fr30xx_c/components/modules/FreeRTOS/list.c:117-185 | inserting by value keeps a list in value order |
| ListSpec.PosUnique | fr30xx_c/components/modules/FreeRTOS/list.c:137-173 | in a sorted list the two neighbours of an insertion point determine it, so the search may stop at the first greater value |
| ListSpec.AdvanceRotates | fr30xx_c/components/modules/FreeRTOS/include/list.h:281-292 | a pick returns the first upcoming owner and sends it to the back of the rotation |
| ListSpec.PicksFollowRotation | fr30xx_c/components/modules/FreeRTOS/include/list.h:281-292 | n picks return the next n owners in rotation order, for any n up to the list length |
| ListSpec.FullTurnVisitsEachOnce | fr30xx_c/components/modules/FreeRTOS/include/list.h:264-292 | as many picks as a list has items return every item exactly once |
| ListSpec.NewcomerIsLast | fr30xx_c/components/modules/FreeRTOS/list.c:87-114 | an item added at the end is picked after everybody but the item just picked |
| ListSpec.RemoveKeepsOrder | fr30xx_c/components/modules/FreeRTOS/list.c:188-214 | removing an item leaves the order of the other turns alone |
| Lists.List.InsertEnd | fr30xx_c/components/modules/FreeRTOS/list.c:87-114 | the circular pointers afterwards stand for the ring with the item put in behind the index, nothing else relinked |
| Lists.List.Insert | fr30xx_c/components/modules/FreeRTOS/list.c:117-185 | the pointers stand for the sorted list with the item behind all equal values |
| Lists.List.Search | fr30xx_c/components/modules/FreeRTOS/list.c:137-173 | the walk ends at the node to insert behind, for every value including the maximum |
| Lists.List.Remove | fr30xx_c/components/modules/FreeRTOS/list.c:188-214 | the item is bypassed both ways, an index on it steps back, and the new length is returned |
| Lists.List.NextOwner | fr30xx_c/components/modules/FreeRTOS/include/list.h:281-292 | the index moves on, skipping the end marker, and the owner there is returned |
| Kernel.EmptyAtSwitch | fr30xx_c/components/modules/FreeRTOS/tasks.c:203-215 | the delayed list is empty when the lists change places, as the code asserts, if and only if the wait was not 0 or the task did not block in the last tick of the epoch |
| Kernel.DueFromFirstWake | fr30xx_c/components/modules/FreeRTOS/tasks.c:4008-4026 | with the cached next unblock time being the earliest wake time of the epoch, somebody is due at a time of the epoch exactly when the count has reached it |
| KernelRuns.FreshGood | fr30xx_c/components/modules/FreeRTOS/tasks.c:1073-1121 | with every created task on its ready list and nothing else, the invariant holds and the running task is a most urgent one, so runs have a beginning |
| KernelRuns.TickReadiesExactlyDue | fr30xx_c/components/modules/FreeRTOS/tasks.c:2738-2908 | one processed tick readies exactly the tasks whose wake time is reached, and nobody else |
| KernelRuns.StepGood | fr30xx_c/components/modules/FreeRTOS/tasks.c:2138-2331 | every scheduler step, the release of a task while the scheduler is suspended included, keeps: each task on exactly one state list, ready tasks filed under their priority, priorities bounded by uxTopReadyPriority, wake times within a turn |
| KernelRuns.RunGood | fr30xx_c/components/modules/FreeRTOS/tasks.c:2138-2908 | the scheduler invariant holds in every state of every run |
| KernelRuns.RunAccounts | fr30xx_c/components/modules/FreeRTOS/tasks.c:2738-2908 | ticks processed plus ticks pended are the ticks received modulo 2^32, and exactly those if the pended count never wrapped |
| KernelRuns.ExactWakeUp | fr30xx_c/components/modules/FreeRTOS/tasks.c:2738-2908 | a task that blocks at tick t for k >= 1 ticks and is not woken by an event is blocked before tick t + k is processed and ready from then on, across tick wraps and scheduler suspensions |
| KernelRuns.SwitchPicksHighest | fr30xx_c/components/modules/FreeRTOS/tasks.c:138-153 | an unsuspended context switch picks a ready task of maximal priority, the next one in its rotation |
| KernelPlaces.StepPlaces | fr30xx_c/components/modules/FreeRTOS/tasks.c:2138-3292 | the blocked lists after any step, item by item: a task stays blocked unless it is readied or its true time is reached, and only the task that blocks comes, under its true wake time or without one |
| KernelPlaces.StepReadies | fr30xx_c/components/modules/FreeRTOS/tasks.c:2138-3292 | who is ready after any step: those that were and have not blocked, those the step readies, those whose time it reaches, and nobody else |
| KernelPlaces.StepOnEvent | fr30xx_c/components/modules/FreeRTOS/tasks.c:3099-3292 | who waits for an event after any step: those that did, until their event, release or deadline, and the task that blocks for one |
| KernelPlaces.EventReadies | fr30xx_c/components/modules/FreeRTOS/tasks.c:3185-3292 | no event is thrown away: in every run a task taken off its event list is ready in every later state in which the scheduler runs, until it blocks again; when it was released under suspension, at once |
| KernelPlaces.ResumeReadiesPending | fr30xx_c/components/modules/FreeRTOS/tasks.c:2235-2269 | the outermost resume readies every task on the pending ready list, and every other task whose deadline is not reached stays where it was |
| KernelPlaces.NoTickFinds | fr30xx_c/components/modules/FreeRTOS/tasks.c:5338-5348 | in every run a task that blocks without a deadline is blocked, on no list a tick looks at, until its event or release, however much time passes |
| KernelSwitches.TickSwitchesExactly | fr30xx_c/components/modules/FreeRTOS/tasks.c:2826-2908 | a tick asks for a switch exactly when one is pending or another ready task is at least as urgent as the running one |
| KernelSwitches.ResumeSwitchesExactly | fr30xx_c/components/modules/FreeRTOS/tasks.c:2256-2316 | a resume leaves a switch pending exactly when one was, a task it readied is at least as urgent as the running one, or ticks were replayed and another ready task is |
| KernelSwitches.NoUrgentTaskOverlooked | fr30xx_c/components/modules/FreeRTOS/tasks.c:2138-3292 | preemption: in every run in which a tick that asks for a switch gets it, a ready task more urgent than the running one finds a switch pending |
| KernelSwitches.FreshOrdered | fr30xx_c/components/modules/FreeRTOS/tasks.c:1073-1135 | when the scheduler starts, the running task is a most urgent one, so such runs have a beginning |
| KernelSwitches.SwitchTurns | fr30xx_c/components/modules/FreeRTOS/tasks.c:3023-3098 | a switch sends the task it picks to the back of its rotation and changes no other turn |
| KernelSwitches.ReadiedTakesLastTurn | fr30xx_c/components/modules/FreeRTOS/tasks.c:223-227 | a readied task takes its turn after all others of its priority but the one just picked |
| KernelSwitches.DueTakeTurnsInOrder | fr30xx_c/components/modules/FreeRTOS/tasks.c:2788-2860 | tasks readied by one tick take their turns in the order of their wake times |
| KernelSwitches.PendingTakeTurnsInOrder | fr30xx_c/components/modules/FreeRTOS/tasks.c:2246-2269 | tasks readied at a resume take their turns in the order of their events |
| TwoLists.InsertJoined | fr30xx_c/components/modules/FreeRTOS/tasks.c:5354-5369 | putting a wrapped wake time into the delayed or the overflow list is inserting the true time into one unbounded sorted queue |
| TwoLists.JoinedNext | fr30xx_c/components/modules/FreeRTOS/tasks.c:203-215 | one tick later the lists, exchanged at a wrap, stand for the same queue |
| TwoLists.JoinedWithout | fr30xx_c/components/modules/FreeRTOS/tasks.c:3185-3235 | taking a task off whichever list holds it takes it off the queue |
| Kernel.Scheduler.constructor | fr30xx_c/components/modules/FreeRTOS/tasks.c:3668-3698 | the initialised lists with every task created onto its ready list are the initial state of the unbounded model, which satisfies the run invariant |
| Kernel.Scheduler.AddNewTaskToReadyList | fr30xx_c/components/modules/FreeRTOS/tasks.c:1073-1135 | before the scheduler runs, the last created of the most urgent tasks becomes current |
| Kernel.Scheduler.ResetNextTaskUnblockTime | fr30xx_c/components/modules/FreeRTOS/tasks.c:4008-4026 | no wake time on the delayed list is earlier than the next unblock time, and one is equal to it; with nobody there it is the maximum |
| Kernel.Scheduler.SwitchDelayedLists | fr30xx_c/components/modules/FreeRTOS/tasks.c:203-215 | the lists change places, the overflow count goes up, the unblock time is taken afresh; called only with the delayed list empty, as the assertion demands |
| Kernel.Scheduler.AdvanceCount | fr30xx_c/components/modules/FreeRTOS/tasks.c:2749-2766 | the wrapped count and lists stand for the true time one tick on; at a wrap nothing is left in the old list |
| Kernel.Scheduler.WakeDueTasks | fr30xx_c/components/modules/FreeRTOS/tasks.c:2772-2848 | the loop wakes exactly the due prefix of the queue, in order, and asks for a switch exactly if one of them matches the running priority |
| Kernel.Scheduler.ProcessTick | fr30xx_c/components/modules/FreeRTOS/tasks.c:2749-2866 | a tick with the scheduler running is the unbounded tick, and takes off the delayed list exactly the wake times the new count has reached |
| Kernel.Scheduler.IncrementTick | fr30xx_c/components/modules/FreeRTOS/tasks.c:2738-2908 | the 32-bit tick does what one unbounded tick does, or pends it when suspended |
| Kernel.Scheduler.AddCurrentTaskToDelayedList | fr30xx_c/components/modules/FreeRTOS/tasks.c:5312-5422 | the running task leaves its ready list for the queue at its true wake time, or for the suspended list |
| Kernel.Scheduler.PlaceOnEventList | fr30xx_c/components/modules/FreeRTOS/tasks.c:3099-3121 | the running task goes onto the event list in priority order, behind equals, and blocks |
| Kernel.Scheduler.RemoveFromEventList | fr30xx_c/components/modules/FreeRTOS/tasks.c:3185-3250 | the head of the event list, a most urgent task on it, is taken off it and readied, or pended when suspended; the result says whether it outranks the running one |
| EventLists.HeadEvent | fr30xx_c/components/modules/FreeRTOS/tasks.c:3190-3206 | the head of an event list is the most urgent task on it, and taking it off touches no other list |
| Kernel.Scheduler.SuspendAll | fr30xx_c/components/modules/FreeRTOS/tasks.c:2138-2163 | the nesting count goes up and nothing else changes |
| Kernel.Scheduler.ResumeAll | fr30xx_c/components/modules/FreeRTOS/tasks.c:2222-2331 | the outermost resume drains the pending ready list and replays every pended tick |
| Kernel.Scheduler.DecideDelay | fr30xx_c/components/modules/FreeRTOS/tasks.c:1277-1327 | under suspension, with anything pended before and after: the caller is put to sleep until previous + increment exactly when that lies ahead in unbounded time (less than a turn after previous) |
| Kernel.Scheduler.DelayUntil | fr30xx_c/components/modules/FreeRTOS/tasks.c:1261-1341 | the whole call, with any number of ticks arriving before and after the decision: they are pended and replayed at the resume |
| Kernel.UndisturbedDelay | fr30xx_c/components/modules/FreeRTOS/tasks.c:1261-1341 | with no tick in between, the whole call amounts to one block |
| Kernel.Scheduler.SwitchContext | fr30xx_c/components/modules/FreeRTOS/tasks.c:3023-3096 | the search down from uxTopReadyPriority ends at the highest non-empty list, whose next owner becomes current |
| Deadlines.DelayUntilDecision | fr30xx_c/components/modules/FreeRTOS/tasks.c:1277-1306 | the wrapped comparison delays if and only if increment exceeds the wrapped time since previous; it is the true answer if and only if less than a turn has passed or none is due either way |
| Deadlines.LateCallSleeps | fr30xx_c/components/modules/FreeRTOS/tasks.c:1277-1306 | an input on which the comparison is wrong: a call for every 10 ticks, made a full turn and 3 ticks later |
| Deadlines.OneWrapIsRead | fr30xx_c/components/modules/FreeRTOS/tasks.c:3322-3384 | with at most one wrap since the stamp, the overflow count and the tick tell the elapsed time right |
| Deadlines.LateCheckMissesExpiry | fr30xx_c/components/modules/FreeRTOS/tasks.c:3343-3372 | an input on which the check misreads: stamp 5, wait 2^32 - 2, looked at at 2 * 2^32 + 2 |
| Deadlines.ChecksNeverDrift | fr30xx_c/components/modules/FreeRTOS/tasks.c:3322-3384 | however often a wait is shortened, it expires with the first check at or after the original deadline |
| Deadlines.TimeOut.Check | fr30xx_c/components/modules/FreeRTOS/tasks.c:3322-3384 | expiry is reported if and only if the true elapsed time reaches the wait and is not misread; otherwise stamp plus remaining wait stays the same |
| Timers.InsertDecision | fr30xx_c/components/modules/FreeRTOS/timers.c:711-752 | for a command issued at C and looked at at T, less than a turn later, the wrapped comparisons say "process now" iff C + P <= T, and otherwise choose the epoch C + P falls in |
| TimerSpec.NextExpiryIsLeast | fr30xx_c/components/modules/FreeRTOS/timers.c:517-533 | the expiry after a backlog is the least one on the grid that lies ahead |
| TimerSpec.BacklogUnique | fr30xx_c/components/modules/FreeRTOS/timers.c:517-533 | the number of periods the reload loop runs through is determined by where it stops |
| TimerSpec.StepGood | fr30xx_c/components/modules/FreeRTOS/timers.c:599-925 | every daemon step keeps: timers of this epoch or the next, each listed exactly if its active flag is set, once, in expiry order |
| TimerSpec.FreshGood | fr30xx_c/components/modules/FreeRTOS/timers.c:928-968 | with timers created and none started, the invariant holds, so runs have a beginning |
| TimerSpec.RunGood | fr30xx_c/components/modules/FreeRTOS/timers.c:599-925 | the timer invariant holds in every state of every run, across list switches |
| TimerSpec.CallbacksFollowGrid | fr30xx_c/components/modules/FreeRTOS/timers.c:517-560 | an auto-reload timer left alone stays on its grid: next expiry = first + n * period with n its callbacks since, none early, none lost, and n exactly the expiries so far when nothing is overdue |
| TimerCommands.StartStarts | fr30xx_c/components/modules/FreeRTOS/timers.c:816-846 | a start received in time has the timer expire one period after it was issued, and changes nothing else about it |
| TimerCommands.LateStart | fr30xx_c/components/modules/FreeRTOS/timers.c:816-846 | a start received after that expiry calls a one-shot timer back once and is done with it; an auto-reload timer is called back for every expiry up to now, and its next one is the first ahead |
| TimerCommands.StopStops | fr30xx_c/components/modules/FreeRTOS/timers.c:847-851 | a stop leaves the timer inactive and off the queue, without a callback |
| TimerCommands.ChangePeriodRestarts | fr30xx_c/components/modules/FreeRTOS/timers.c:853-866 | the timer runs with the new period, counted from when the command is dealt with |
| TimerCommands.DeleteDeletes | fr30xx_c/components/modules/FreeRTOS/timers.c:868-890 | a timer made at run time is gone, a permanent one inactive; neither is called back |
| TimerCommands.StoppedStaysQuiet | fr30xx_c/components/modules/FreeRTOS/timers.c:755-900 | in every run a stopped or deleted timer is off the queue, inactive and not called back, until a start or a change of period concerns it |
| TimerCommands.OneShotFiresOnce | fr30xx_c/components/modules/FreeRTOS/timers.c:536-565 | in every run without commands to it, a one-shot timer is called back at most once, not before its expiry, and is inactive then; with nothing overdue it has been exactly if that expiry is past |
| TimerCommands.ProcessTakesEarliest | fr30xx_c/components/modules/FreeRTOS/timers.c:599-660 | a turn of the daemon deals with the earliest expiry that is due, the first filed among equals, and with no other timer |
| TimerCommands.DaemonCatchesUp | fr30xx_c/components/modules/FreeRTOS/timers.c:576-660 | looking again at the same time, the daemon has nothing overdue after as many turns as there were overdue timers |
| TimerCommands.NewEpochFlushes | fr30xx_c/components/modules/FreeRTOS/timers.c:688-712 | the first look in a new epoch deals with everything left of the old one |
| Timers.Daemon.InsertTimerInActiveList | fr30xx_c/components/modules/FreeRTOS/timers.c:711-752 | the timer is filed at its true expiry in the unbounded queue, or reported as due |
| Timers.Daemon.ReloadTimer | fr30xx_c/components/modules/FreeRTOS/timers.c:517-533 | terminates, calls back once per whole period from the expiry to now, and files the timer at the next expiry ahead |
| Timers.Daemon.ProcessExpiredTimer | fr30xx_c/components/modules/FreeRTOS/timers.c:536-560 | the head timer is taken off, reloaded or marked inactive, and called back once more |
| Timers.Daemon.SwitchTimerLists | fr30xx_c/components/modules/FreeRTOS/timers.c:903-925 | terminates with the old list empty: everything of the old epoch is dealt with, then the lists change places |
| Timers.Daemon.SampleTimeNow | fr30xx_c/components/modules/FreeRTOS/timers.c:688-708 | a count smaller than the last one means a new epoch, and the lists are switched exactly then |
| Timers.Daemon.constructor | fr30xx_c/components/modules/FreeRTOS/timers.c:928-968 | empty lists are the initial state of the unbounded model, which satisfies the run invariant |
| Timers.Daemon.InitialiseNewTimer | fr30xx_c/components/modules/FreeRTOS/timers.c:355-384 | a timer is created inactive, at any time, and the invariant is kept |
| Timers.Daemon.GetNextExpireTime | fr30xx_c/components/modules/FreeRTOS/timers.c:661-685 | whether any running timer expires in this epoch, and if so the wrapped expiry of the first of all running timers; otherwise the first count of the next epoch |
| Timers.Daemon.ProcessTimerOrBlock | fr30xx_c/components/modules/FreeRTOS/timers.c:599-685 | one expired timer is processed, or the daemon blocks with nothing overdue and wakes no later than any expiry; it blocks for 0 ticks in the first tick of an epoch only |
| Timers.Daemon.PerformCommand | fr30xx_c/components/modules/FreeRTOS/timers.c:755-900 | start, reset, stop, change period and delete, with the timer first taken off its list and the clock sampled after |
| QueueSpec.WakeReceiversOk | fr30xx_c/components/modules/FreeRTOS/queue.c:2264-2350 | unlocking for n posts wakes n receivers or all of them |
| QueueSpec.UnlockTxOk | fr30xx_c/components/modules/FreeRTOS/queue.c:2264-2350 | after unlocking, every item posted while the queue was locked has a woken receiver, or nobody waits |
| QueueSpec.UnlockRxOk | fr30xx_c/components/modules/FreeRTOS/queue.c:2352-2381 | likewise for slots freed while it was locked |
| QueueSpec.AttemptOk | fr30xx_c/components/modules/FreeRTOS/queue.c:805-900 | sending, receiving and peeking at the top of their loops keep every wake-up paid for; a peek passes its wake-up on |
| QueueSpec.IsrSendOk | fr30xx_c/components/modules/FreeRTOS/queue.c:1017-1181 | a post from an interrupt wakes a receiver, or is counted when the queue is locked |
| QueueSpec.IsrReceiveOk | fr30xx_c/components/modules/FreeRTOS/queue.c:1865-1957 | a receive from an interrupt wakes a sender, or is counted |
| QueueSpec.PlaceGood | fr30xx_c/components/modules/FreeRTOS/queue.c:1443-1455 | what a task saw under the lock still holds when it goes onto the event list, so it cannot miss what came in between |
| QueueSpec.StepGood | fr30xx_c/components/modules/FreeRTOS/queue.c:805-1492 | every step of every task and interrupt keeps the wake-up invariant |
| QueueSpec.NoLostWakeUp | fr30xx_c/components/modules/FreeRTOS/queue.c:805-1957 | over every interleaving: while a receiver waits, items <= woken receivers that have yet to look + posts to be passed on at unlock; and symmetrically for senders |
| QueueSpec.AsleepForAReason | fr30xx_c/components/modules/FreeRTOS/queue.c:805-1957 | when all callers are asleep and the scheduler runs, sleeping receivers mean an empty queue and sleeping senders a full one; they never face each other |
| QueueTurns.StepWakes | fr30xx_c/components/modules/FreeRTOS/queue.c:805-2381 | a step takes exactly as many tasks off a waiting list as it owes wake-ups, one for an item put in, taken out or left, one for each counted in a lock; they are the most urgent, in order |
| QueueTurns.PlaceLists | fr30xx_c/components/modules/FreeRTOS/queue.c:1451-1455 | only a task that goes to sleep comes onto a list, that of its side, in priority order |
| QueueTurns.TimeoutLists | fr30xx_c/components/modules/FreeRTOS/tasks.c:2811-2828 | a timeout takes exactly its task off the lists |
| QueueTurns.EntersTop | fr30xx_c/components/modules/FreeRTOS/queue.c:805-830 | a call begins at the top of its loop, on no list, with the queue as it is |
| QueueTurns.GoesToSleep | fr30xx_c/components/modules/FreeRTOS/queue.c:1352-1475 | with the queue empty, or full for a sender, and time left, a call ends its turn on the event list of its side, with the queue unlocked and the scheduler running |
| QueueTurns.TestDecides | fr30xx_c/components/modules/FreeRTOS/queue.c:955-1006 | what a task finds under the lock decides: it goes on to the event list exactly if the queue is empty, or full for a sender |
| QueueTurns.RetriesAwake | fr30xx_c/components/modules/FreeRTOS/queue.c:993-998 | otherwise it ends its turn awake, on no list, at the top of its loop |
| QueueTurns.GivesUp | fr30xx_c/components/modules/FreeRTOS/queue.c:1000-1013 | a call that found nothing to do and is out of time ends, and leaves the queue as it was |
| QueueTurns.OverfilledSpins | fr30xx_c/components/modules/FreeRTOS/queue.c:861-1006 | while a queue holds more than its length, a blocking sender goes once round its loop without blocking and ends up where it was, the queue unchanged |
| QueueTurns.ItemsAddUp | fr30xx_c/components/modules/FreeRTOS/queue.c:805-1957 | over every interleaving, the items in the queue are those put in and not taken out; peeking does neither |
| QueueTurns.LockCountsPosts | fr30xx_c/components/modules/FreeRTOS/queue.c:251-263 | from locking to unlocking, the lock counts the interrupt posts one by one, whatever else happens |
| QueueTurns.LockCountsTakes | fr30xx_c/components/modules/FreeRTOS/queue.c:251-263 | and the other one the interrupt receives |
| Queues.PushBack | fr30xx_c/components/modules/FreeRTOS/queue.c:2188-2200 | writing the slot behind the last item appends it, whatever the wrap |
| Queues.PushFront | fr30xx_c/components/modules/FreeRTOS/queue.c:2202-2215 | writing the slot last read from and stepping back prepends the item |
| Queues.PopFront | fr30xx_c/components/modules/FreeRTOS/queue.c:2243-2261 | stepping the read slot on removes the oldest item |
| Queues.MessageQueue.constructor | fr30xx_c/components/modules/FreeRTOS/queue.c:266-286 | a new queue is empty, unlocked and has nobody waiting |
| Queues.MessageQueue.CopyDataToQueue | fr30xx_c/components/modules/FreeRTOS/queue.c:2160-2240 | append, prepend or replace the stored items, byte for byte, with the pointers wrapped as needed; the queue stays in order if and only if it is not a full semaphore that is overwritten |
| Queues.OverwrittenSemaphore | fr30xx_c/components/modules/FreeRTOS/queue.c:2160-2240 | a binary semaphore given, then overwritten, counts 2 |
| Queues.MessageQueue.CopyDataFromQueue | fr30xx_c/components/modules/FreeRTOS/queue.c:2243-2261 | the oldest item, with the read pointer moved onto it |
| Queues.MessageQueue.TrySend | fr30xx_c/components/modules/FreeRTOS/queue.c:830-930 | succeeds exactly if there is room or overwriting is asked for; stores the item and wakes the most urgent receiver, the overwritten full semaphore included |
| Queues.MessageQueue.TryReceive | fr30xx_c/components/modules/FreeRTOS/queue.c:1380-1430 | takes the oldest item if there is one and wakes the most urgent sender |
| Queues.MessageQueue.TryPeek | fr30xx_c/components/modules/FreeRTOS/queue.c:1740-1790 | returns the oldest item, leaves all items in place and wakes the next receiver |
| Queues.MessageQueue.SendInISR | fr30xx_c/components/modules/FreeRTOS/queue.c:1017-1181 | as a send, but a locked queue counts instead of waking |
| Queues.MessageQueue.ReceiveInISR | fr30xx_c/components/modules/FreeRTOS/queue.c:1865-1957 | as a receive, but a locked queue counts instead of waking |
| Queues.MessageQueue.LockQueue | fr30xx_c/components/modules/FreeRTOS/queue.c:251-263 | only counters that are unlocked are set to 0 |
| Queues.MessageQueue.UnlockSenders | fr30xx_c/components/modules/FreeRTOS/queue.c:2264-2350 | the first loop wakes one receiver per counted post until none waits, then unlocks |
| Queues.MessageQueue.UnlockReceivers | fr30xx_c/components/modules/FreeRTOS/queue.c:2352-2381 | the second loop wakes one sender per counted receive |
| MutexSpec.SetPrioGood | fr30xx_c/components/modules/FreeRTOS/tasks.c:4100-4125 | moving a task to a new priority keeps every scheduler invariant and leaves every task on the list it was on |
| MutexSpec.BlockGood | fr30xx_c/components/modules/FreeRTOS/queue.c:1625-1647 | blocking on a mutex, inheritance included, keeps the mutex invariant |
| MutexSpec.GiveGood | fr30xx_c/components/modules/FreeRTOS/queue.c:2171-2186 | giving a mutex back, disinheritance and wake-up included, keeps it |
| MutexSpec.LeaveGood | fr30xx_c/components/modules/FreeRTOS/queue.c:1663-1704 | so does giving up after a timeout |
| MutexSpec.StepGood | fr30xx_c/components/modules/FreeRTOS/tasks.c:4076-4345 | every step of the mutex protocol, interleaved with any scheduler steps, keeps the invariant |
| MutexSpec.InheritanceHolds | fr30xx_c/components/modules/FreeRTOS/tasks.c:4076-4345 | in every run: uxMutexesHeld counts the mutexes held, a mutex is available iff it has no holder, uxPriority >= uxBasePriority with equality when nothing is held |
| MutexSpec.HolderIsUrgent | fr30xx_c/components/modules/FreeRTOS/tasks.c:4076-4345 | in every run: a holder is at least as urgent as each waiter that blocked during its holding, also after other waiters have timed out |
| MutexSpec.TakeUrgent | fr30xx_c/components/modules/FreeRTOS/queue.c:1527-1574 | when every holder is at least as urgent as all its waiters, taking a mutex keeps that if and only if the taker is at least as urgent as the head of the waiters it takes over |
| MutexSpec.BlockUrgent | fr30xx_c/components/modules/FreeRTOS/tasks.c:4076-4161 | blocking on a mutex keeps every holder at least as urgent as all its waiters |
| MutexSpec.GiveUrgent | fr30xx_c/components/modules/FreeRTOS/tasks.c:4166-4241 | so does giving one back |
| MutexSpec.LeaveUrgent | fr30xx_c/components/modules/FreeRTOS/tasks.c:4246-4345 | so does giving up after a timeout |
| MutexSpec.LeaveMakesUrgent | fr30xx_c/components/modules/FreeRTOS/tasks.c:4246-4345 | a timeout after inheritance makes a holder of one mutex at least as urgent as all waiters that are left, those of earlier holdings included, which may raise it |
| MutexSpec.HolderIsMostUrgent | fr30xx_c/components/modules/FreeRTOS/tasks.c:4076-4345 | in every run in which nobody takes a mutex over a more urgent waiter, every holder is at least as urgent as all its waiters |
| MutexSpec.RetakeLeavesWaiter | fr30xx_c/components/modules/FreeRTOS/queue.c:1527-1574 | an input where it is not: a mutex given and retaken at once, its waiter of priority 4 left behind a holder of priority 1 |
| MutexCalls.OneHolder | fr30xx_c/components/modules/FreeRTOS/queue.c:1527-1574 | mutual exclusion: in every run, from taking a mutex to giving it back a task is its only holder, and nobody else takes it |
| MutexCalls.GiveWakesHead | fr30xx_c/components/modules/FreeRTOS/queue.c:830-930 | giving a mutex wakes the most urgent waiter, to try again, and no other |
| MutexCalls.FreeMutexIsClaimed | fr30xx_c/components/modules/FreeRTOS/queue.c:1495-1704 | in every run, while a mutex is free and somebody waits for it, a task is awake and about to take it |
| MutexCalls.BlockRaises | fr30xx_c/components/modules/FreeRTOS/tasks.c:4076-4161 | blocking raises the holder to the greater of its own and the blocked priority and nobody else; it counts as inherited exactly if the task is more urgent than the base priority of the holder |
| MutexCalls.GiveRestores | fr30xx_c/components/modules/FreeRTOS/tasks.c:4166-4241 | with the last mutex the base priority comes back; before that, and for everybody else, priorities stay |
| MutexCalls.LeaveLowers | fr30xx_c/components/modules/FreeRTOS/tasks.c:4246-4345 | giving up after a wait that made a holder inherit brings a holder of one mutex to the greatest of its base priority and those still waiting, and changes no other priority |
| MutexCalls.OthersKeepPriorities | fr30xx_c/components/modules/FreeRTOS/tasks.c:4076-4345 | no other step changes a priority |
| MutexCalls.TimedOutWaitIsUndone | fr30xx_c/components/modules/FreeRTOS/queue.c:1625-1704 | in every run, from blocking to giving up: the inheritance a wait caused is taken back |
| MutexCalls.HolderKeepsUp | fr30xx_c/components/modules/FreeRTOS/tasks.c:4076-4161 | in every run, while a task still waits after blocking and nobody takes the mutex meanwhile, its holder is at least as urgent as the task |
| MutexCalls.CallPhases | fr30xx_c/components/modules/FreeRTOS/queue.c:1495-1704 | a call begins without inheritance; a poll of a taken mutex ends it; out of time a task tries once more, and keeps the mark that somebody inherited |
| MutexCalls.TimeoutLeavesList | fr30xx_c/components/modules/FreeRTOS/tasks.c:2811-2828 | a timeout takes exactly its task off the list of the mutex |
| Mutexes.TaskTable.constructor | fr30xx_c/components/modules/FreeRTOS/tasks.c:1073-1135 | all tasks ready at their base priority and no mutex taken satisfy the run invariant |
| Mutexes.TaskTable.PriorityInherit | fr30xx_c/components/modules/FreeRTOS/tasks.c:4076-4161 | the holder is raised to the running task's priority, and moved between ready lists if it is ready; its event list item value follows unless in use; the result tells whether anything was inherited |
| Mutexes.TaskTable.PriorityDisinherit | fr30xx_c/components/modules/FreeRTOS/tasks.c:4166-4241 | the held count goes down, and with the last mutex the base priority comes back, to the event list item value too |
| Mutexes.TaskTable.PriorityDisinheritAfterTimeout | fr30xx_c/components/modules/FreeRTOS/tasks.c:4246-4345 | a holder of one mutex drops to the greater of its base and the most urgent waiter, and so does its event list item value unless in use |
| Mutexes.TaskTable.GetDisinheritPriorityAfterTimeout | fr30xx_c/components/modules/FreeRTOS/queue.c:2135-2157 | no task waiting for the mutex has a higher priority than the result, and if anybody waits one of them has exactly it; otherwise it is the idle priority |
| Mutexes.TaskTable.TryTake | fr30xx_c/components/modules/FreeRTOS/queue.c:1527-1574 | takes the mutex exactly if it is available, recording holder and count |
| Mutexes.TaskTable.BlockOnMutex | fr30xx_c/components/modules/FreeRTOS/queue.c:1625-1647 | inheritance first, then onto the list in priority order |
| Mutexes.TaskTable.LeaveAfterTimeout | fr30xx_c/components/modules/FreeRTOS/queue.c:1676-1704 | disinherits exactly if the wait made somebody inherit |
| Mutexes.TaskTable.GiveMutex | fr30xx_c/components/modules/FreeRTOS/queue.c:2171-2186 | no holder, available, the head waiter woken |
| HeapBlocks.TotalSize | fr30xx_c/components/modules/heap/heap.c:239-246 | a request is rounded up, given a header and never smaller than a free header; nothing beyond that is taken |
| HeapBlocks.CarveWellFormed | fr30xx_c/components/modules/heap/heap.c:286-367 | handing out a block keeps the arena tiled, aligned and coalesced, with the head block in place |
| HeapBlocks.ReleaseWellFormed | fr30xx_c/components/modules/heap/heap.c:376-513 | merging a freed block with its free neighbours keeps it so |
| HeapBlocks.ReleaseUndoesCarve | fr30xx_c/components/modules/heap/heap.c:227-513 | freeing the block an allocation handed out restores the arena exactly |
| HeapBlocks.CarveAccounting | fr30xx_c/components/modules/heap/heap.c:286-304 | the live total grows by exactly the bytes taken |
| HeapBlocks.Taken | fr30xx_c/components/modules/heap/heap.c:286-304 | at least what is needed is taken, less than a free header more, all or exactly that, and no remainder is too small for a header |
| HeapBlocks.EligibleExactly | fr30xx_c/components/modules/heap/heap.c:256-284 | a block is eligible exactly if it is free, large enough, and handing it out leaves the arena in order |
| HeapBlocks.ReleaseAccounting | fr30xx_c/components/modules/heap/heap.c:505-509 | and shrinks by exactly the size of the block freed |
| HeapBlocks.RunWellFormed | fr30xx_c/components/modules/heap/heap.c:208-513 | after every prefix of every run from a fresh arena: blocks tile it, no two free ones touch, sizes are multiples of 4 and at least a free header, the head block is free |
| HeapBlocks.AllFreedRestoresArena | fr30xx_c/components/modules/heap/heap.c:227-513 | once everything is freed, in any order, the arena is the single initial block |
| Heap.FreesSorted | fr30xx_c/components/modules/heap/heap.c:208-225 | the free list is in address order and its members do not touch |
| Heap.Transition | fr30xx_c/components/modules/heap/heap.c:227-513 | code that writes inside a range and at one seam of the list turns a represented arena into the represented next one |
| Heap.BestNodeIsBestFit | fr30xx_c/components/modules/heap/heap.c:256-284 | the best node of the list scan is the best fitting block of the arena |
| Heap.FreePlusUsed | fr30xx_c/components/modules/heap/heap.c:264-304 | free and used bytes add up to the arena, so the count derived from the scan is right |
| Heap.Arena.constructor | fr30xx_c/components/modules/heap/heap.c:208-225 | one free block spans the aligned arena; no bytes are lost to alignment if and only if start and size are multiples of 4 |
| Heap.UnalignedArena | fr30xx_c/components/modules/heap/heap.c:208-304 | an arena of 101 bytes at address 1: after an allocation heap_used is the sum of the live blocks plus 5 |
| Heap.Arena.Alloc | fr30xx_c/components/modules/heap/heap.c:227-374 | the best fit is carved or, if and only if nothing fits, nothing changes; heap_used is the live total if and only if no bytes were lost to alignment; no live payload is touched |
| Heap.Arena.Search | fr30xx_c/components/modules/heap/heap.c:256-284 | the scan finds the smallest sufficient node, the lowest among equals, and the free total |
| Heap.Arena.TakeWhole | fr30xx_c/components/modules/heap/heap.c:331-345 | a block taken whole leaves the list, its neighbours linked to each other |
| Heap.Arena.TakeTail | fr30xx_c/components/modules/heap/heap.c:346-359 | otherwise only its tail is marked used and its size shrinks |
| Heap.Arena.Free | fr30xx_c/components/modules/heap/heap.c:376-513 | the block is merged with its free neighbours, links and headers rewritten, no other live payload touched; after any allocation heap_used is the live total if and only if no bytes were lost to alignment |
| Heap.Arena.Locate | fr30xx_c/components/modules/heap/heap.c:430-494 | the walk stops at the node the block extends, or between the nodes it belongs between |
| Heap.Arena.Append | fr30xx_c/components/modules/heap/heap.c:435-457 | a block that extends the node before it joins it, and maybe the one after |
| Heap.Arena.InsertBefore | fr30xx_c/components/modules/heap/heap.c:458-488 | a block in front of a node is linked in, or swallows the node it touches |
| Heap.Arena.InsertLast | fr30xx_c/components/modules/heap/heap.c:496-503 | a block beyond the last node becomes the new last one |
| Heap.Arena.DumpUsed | fr30xx_c/components/modules/heap/heap.c:544-571 | the walk by sizes reports each used block exactly once, in address order, and stops at the arena end |
| Heap.Select | fr30xx_c/components/modules/heap/heap.c:189-202 | the inclusive range test finds the arena a live pointer belongs to, when arenas do not overlap |
| MixSpec.SavedAt | fr30xx_c/components/modules/audio/audio_decoder.c:296-379 | after a save every position between the readers and the fastest writer holds the 16-bit sum of what was played there, added or copied |
| MixSpec.SaveCore | fr30xx_c/components/modules/audio/audio_decoder.c:296-379 | a save keeps cursors, voices and content |
| MixSpec.StartGood | fr30xx_c/components/modules/audio/audio_decoder.c:573-656 | a decoder starts at the fastest position or at the reserve, with the gap silent |
| MixSpec.StopGood | fr30xx_c/components/modules/audio/audio_decoder.c:658-671 | a stop keeps the invariant, for the voices less what the stop takes back: what was played beyond the furthest decoder that is left |
| MixSpec.StopKeepsVoices | fr30xx_c/components/modules/audio/audio_decoder.c:658-671 | a stop takes nothing back if and only if the decoder is at the write cursor or another one is at least as far |
| MixSpec.UpdateWrCore | fr30xx_c/components/modules/audio/audio_decoder.c:80-134 | moving the global write cursor to the least writer changes nothing else |
| MixSpec.UpdateRdGood | fr30xx_c/components/modules/audio/audio_decoder.c:137-190 | moving the global read cursor to the least reader only gives up what all have read |
| MixSpec.MixGood | fr30xx_c/components/modules/audio/audio_decoder.c:382-474 | mixing any waiting blocks keeps the invariant, with a stop at the end of the input for the voices less what that stop takes back |
| MixSpec.LastMixKeepsVoices | fr30xx_c/components/modules/audio/audio_decoder.c:454-471 | the last call at the end of the input takes nothing back if and only if, seen before the call, not all frames fit, or they end at the write cursor or no further than another decoder |
| MixSpec.LoneDecoderLosesLastCall | fr30xx_c/components/modules/audio/audio_decoder.c:460-471 | a decoder alone at the end of its input, whose frames fit, loses all of its last call: the write cursor stays and the ring holds what it held |
| MixSpec.LastFrameLost | fr30xx_c/components/modules/audio/audio_decoder.c:460-471 | an instance from a ring just initialised: one frame waiting, played and gone |
| MixSpec.FreshGood | fr30xx_c/components/modules/audio/audio_decoder.c:1139-1179 | the initial state, with the readers at the silenced reserve and the writers behind it, satisfies the invariant, and nothing is missing |
| MixSpec.StepGood | fr30xx_c/components/modules/audio/audio_decoder.c:80-1085 | every operation keeps the ring invariant |
| MixSpec.StepWhole | fr30xx_c/components/modules/audio/audio_decoder.c:80-1085 | from a state in which nothing is missing, a step leaves something missing if and only if it is a stop or a last call that takes frames back |
| MixSpec.ListenersHearTheMix | fr30xx_c/components/modules/audio/audio_decoder.c:259-474 | in every run without a stop or last call that takes frames back, the frames an output reads are the 16-bit sums of all that the decoders played at those positions |
| MixSpec.ListenersHearTheVoices | fr30xx_c/components/modules/audio/audio_decoder.c:259-474 | in every run, they are the sums of the voices: what the decoders played less what stops have taken back |
| MixSpec.VoicesTrail | fr30xx_c/components/modules/audio/audio_decoder.c:658-671 | in every run, a voice is what its decoder played up to some position and silence behind it, and complete for a decoder that is started |
| MixSpec.CursorOrder | fr30xx_c/components/modules/audio/audio_decoder.c:80-190 | in every run: read cursor <= each output <= write cursor <= each started decoder <= read cursor + N - 2 |
| MixSpec.SaveKeepsUnread | fr30xx_c/components/modules/audio/audio_decoder.c:296-379 | mixing never overwrites a cell an output has yet to read |
| MixSpec.StartKeepsUnread | fr30xx_c/components/modules/audio/audio_decoder.c:614-643 | nor does the silence written at a start |
| MixMoves.MixTakesInOrder | fr30xx_c/components/modules/audio/audio_decoder.c:382-474 | one mixing call puts down a leading part of the waiting frames, in order, leaves the rest waiting, and stops short only two cells short of a full turn ahead of the readers |
| MixMoves.MixStops | fr30xx_c/components/modules/audio/audio_decoder.c:454-471 | it stops the decoder exactly if its input is over and all that was waiting went in, and no other decoder |
| MixMoves.StartJoins | fr30xx_c/components/modules/audio/audio_decoder.c:573-656 | a decoder starts at the furthest position reached, or the reserve ahead of the readers if that is further; nobody else moves |
| MixMoves.StopLeaves | fr30xx_c/components/modules/audio/audio_decoder.c:658-671 | a stop takes exactly its decoder off the list and moves nobody and no cell |
| MixMoves.StepOutputs | fr30xx_c/components/modules/audio/audio_decoder.c:767-1085 | who listens after any operation, and where: a new output at the read cursor, every other one on by what it has just read |
| MixMoves.OutputsReadOn | fr30xx_c/components/modules/audio/audio_decoder.c:993-1085 | in every run each read of an output begins where its last one ended |
| Mixer.Ring.constructor | fr30xx_c/components/modules/audio/audio_decoder.c:1139-1179 | the initialised cursors and buffer, only the reserve silenced, are that initial state |
| Mixer.Ring.UpdateWrPtr | fr30xx_c/components/modules/audio/audio_decoder.c:80-134 | the wrapped distances find the least writer; the result tells whether the cursor moved |
| Mixer.Ring.UpdateRdPtr | fr30xx_c/components/modules/audio/audio_decoder.c:137-190 | the same for readers, with an output left |
| Mixer.Ring.FindFastest | fr30xx_c/components/modules/audio/audio_decoder.c:397-418 | the furthest writer and its distance |
| Mixer.Ring.AddRun | fr30xx_c/components/modules/audio/audio_decoder.c:342-359 | adding in two parts at the end of the array is adding around the ring |
| Mixer.Ring.CopyRun | fr30xx_c/components/modules/audio/audio_decoder.c:361-376 | so is copying |
| Mixer.Ring.SaveData | fr30xx_c/components/modules/audio/audio_decoder.c:296-379 | as many frames as fit up to two short of a turn are added up to the fastest position and copied beyond it |
| Mixer.Ring.MixDecodedData | fr30xx_c/components/modules/audio/audio_decoder.c:382-474 | the waiting blocks are mixed in order until one does not fit; the fastest position is tracked right although its distance is not updated |
| Mixer.Ring.AudioDecoderStart | fr30xx_c/components/modules/audio/audio_decoder.c:573-656 | start, as in the unbounded model |
| Mixer.Ring.AudioDecoderStop | fr30xx_c/components/modules/audio/audio_decoder.c:658-671 | stop, as in the unbounded model; frames are taken back if and only if the decoder is ahead of the write cursor and of every other one |
| Mixer.Ring.OutputAdd | fr30xx_c/components/modules/audio/audio_decoder.c:767-785 | a new output starts at the global read cursor |
| Mixer.Ring.OutputRemove | fr30xx_c/components/modules/audio/audio_decoder.c:787-801 | an output leaves, another one being left, and the read cursor follows |
| Mixer.Ring.GetPcm | fr30xx_c/components/modules/audio/audio_decoder.c:993-1085 | missed frames are skipped first, then the frames of the ring are returned in order, then silence for an immediate output, which is counted as missed |
| StreamSpec.DecodeEncode | fr30xx_c/components/modules/FreeRTOS/stream_buffer.c:738-742 | a stored length is read back as it was written |
| StreamSpec.FlattenAt | fr30xx_c/components/modules/FreeRTOS/stream_buffer.c:724-765 | where message k starts in the stored bytes, and what is found there |
| StreamSpec.PutByteGood | fr30xx_c/components/modules/FreeRTOS/stream_buffer.c:1141-1184 | writing a byte behind the head touches nothing unread |
| StreamSpec.PublishGood | fr30xx_c/components/modules/FreeRTOS/stream_buffer.c:756-762 | moving the head publishes whole messages only |
| StreamSpec.MeasuredGood | fr30xx_c/components/modules/FreeRTOS/stream_buffer.c:977-985 | the length the reader measures is the length of the message at the tail |
| StreamSpec.FinishGood | fr30xx_c/components/modules/FreeRTOS/stream_buffer.c:1006-1017 | moving the tail hands over exactly the bytes read |
| StreamSpec.StepGood | fr30xx_c/components/modules/FreeRTOS/stream_buffer.c:497-1249 | every access of either side, in any interleaving, keeps the invariant |
| StreamSpec.DeliveredInOrder | fr30xx_c/components/modules/FreeRTOS/stream_buffer.c:542-1017 | in every run a stream delivers a prefix of what was written, a message buffer the first messages sent, intact; unread bytes are whole messages |
| StreamSpec.StaleSpaceIsSafe | fr30xx_c/components/modules/FreeRTOS/stream_buffer.c:497-528 | a space value, however old, never exceeds the space there is |
| StreamSpec.TooLargeStays | fr30xx_c/components/modules/FreeRTOS/stream_buffer.c:988-1004 | a message too large for the caller is left in place, any other is read as a whole |
| StreamSpec.StreamReadTakesAll | fr30xx_c/components/modules/FreeRTOS/stream_buffer.c:968-1017 | a completed stream read, with the writer going on, hands over as many bytes as there is room for, or all that were there at the look if that is less |
| StreamSpec.MessageReadTakesOne | fr30xx_c/components/modules/FreeRTOS/stream_buffer.c:968-1017 | a completed message read hands over exactly the next message if it fits the room, and otherwise nothing, the tail not moving |
| StreamSpec.WriteTakesWhatFits | fr30xx_c/components/modules/FreeRTOS/stream_buffer.c:724-765 | a completed write, with the reader going on, adds as much of the stream data as there was space for at the look, or a whole message, or none |
| StreamBuffers.Buffer.BytesInBuffer | fr30xx_c/components/modules/FreeRTOS/stream_buffer.c:1231-1249 | the unread bytes are counted right |
| StreamBuffers.Buffer.SpacesAvailable | fr30xx_c/components/modules/FreeRTOS/stream_buffer.c:497-528 | however the reader moves on between the reads of the tail, the loop ends with the space that is right for the tail last read |
| StreamBuffers.Buffer.WriteBytes | fr30xx_c/components/modules/FreeRTOS/stream_buffer.c:1141-1184 | the two-part copy lays the bytes down around the ring |
| StreamBuffers.Buffer.ReadBytes | fr30xx_c/components/modules/FreeRTOS/stream_buffer.c:1187-1229 | the two-part copy reads them back |
| StreamBuffers.Buffer.WriteMessage | fr30xx_c/components/modules/FreeRTOS/stream_buffer.c:724-765 | a stream takes as many of the bytes as fit into the space given; a message goes in whole behind its length, or not at all if it does not fit or is empty |
| StreamBuffers.Buffer.ReadStream | fr30xx_c/components/modules/FreeRTOS/stream_buffer.c:968-1017 | hands over the oldest bytes: as many as there is room for, or all that are there if that is less; the rest stays in order |
| StreamBuffers.Buffer.ReadMessage | fr30xx_c/components/modules/FreeRTOS/stream_buffer.c:968-1017 | hands over the message at the tail if the caller has room, and otherwise changes nothing |
| EventSpec.MatchesMet | fr30xx_c/components/modules/FreeRTOS/event_groups.c:692-726 | the packed item value matches exactly when the wait condition is met |
| EventSpec.ReleasedExactly | fr30xx_c/components/modules/FreeRTOS/event_groups.c:555-614 | the walk releases exactly the matching waiters and leaves the others |
| EventSpec.ClearedExactly | fr30xx_c/components/modules/FreeRTOS/event_groups.c:590-597 | a bit is cleared exactly if some released waiter clears it on exit |
| EventSpec.StepGood | fr30xx_c/components/modules/FreeRTOS/event_groups.c:194-626 | every operation keeps: no listed waiter is satisfied, every released one has seen bits that satisfy it |
| EventSpec.NobodyWaitsInVain | fr30xx_c/components/modules/FreeRTOS/event_groups.c:317-626 | in every run no listed task's condition is met by the current bits |
| EventSpec.ReleasedSeeTheirBits | fr30xx_c/components/modules/FreeRTOS/event_groups.c:430-466 | in every run a released task returns bits that meet its condition, whatever happens before it runs |
| EventSpec.SetBitsReleasesExactly | fr30xx_c/components/modules/FreeRTOS/event_groups.c:533-626 | setting bits releases exactly the waiters that old and new bits together satisfy, with that value |
| EventSpec.RunMeets | fr30xx_c/components/modules/FreeRTOS/event_groups.c:194-314 | in a run in which nobody waits but in xEventGroupSync for the same bits, every listed task is in a rendezvous on them |
| EventSpec.RendezvousAllOrNone | fr30xx_c/components/modules/FreeRTOS/event_groups.c:194-314 | at every step of every such run, a completing call releases every blocked participant with the complete bits and leaves none of them set; any other call releases nobody |
| EventSpec.RendezvousFromOutside | fr30xx_c/components/modules/FreeRTOS/event_groups.c:533-626 | so does setting bits from outside: everybody or nobody |
| EventCalls.StepWaiters | fr30xx_c/components/modules/FreeRTOS/event_groups.c:194-626 | who is on the list after any step: those that were and are neither released nor out of time, and the caller if it may wait and does not find its bits |
| EventCalls.StepBits | fr30xx_c/components/modules/FreeRTOS/event_groups.c:194-626 | which bits are left after any step: those it clears are gone, all others as before or as set |
| EventCalls.WaitReturnsOrBlocks | fr30xx_c/components/modules/FreeRTOS/event_groups.c:317-418 | a wait that is met leaves no trace but the bits cleared on request; one that is not is listed, or changes nothing |
| EventCalls.ReturnForgets | fr30xx_c/components/modules/FreeRTOS/event_groups.c:430-466 | a returning call is forgotten; one that was not released returns the bits as they are |
| Events.EventGroup.ClearEventBits | fr30xx_c/components/modules/FreeRTOS/event_groups.c:473-497 | the bits are cleared and the earlier value returned |
| Events.EventGroup.ReleaseMatching | fr30xx_c/components/modules/FreeRTOS/event_groups.c:555-614 | the walk that unlinks while it goes leaves, releases and collects exactly what the model says |
| Events.EventGroup.SetEventBits | fr30xx_c/components/modules/FreeRTOS/event_groups.c:533-626 | set bits, as in the model |
| Events.EventGroup.WaitForEventBits | fr30xx_c/components/modules/FreeRTOS/event_groups.c:317-418 | returns at once with the bits before any clearing if the condition is met, clearing on request, or may not wait; or blocks |
| Events.EventGroup.SyncEventBits | fr30xx_c/components/modules/FreeRTOS/event_groups.c:194-262 | sets bits, then completes the rendezvous or blocks; returns the complete bits, 0 when blocked, or the bits left when it may not wait |
| Events.EventGroup.ReturnFromWait | fr30xx_c/components/modules/FreeRTOS/event_groups.c:430-466 | a released task returns its recorded value; one out of time looks once more |
| Crc32.FeedWhole | fr30xx_c/components/modules/crc/crc32.c:57-60 | feeding a byte bit by bit is feeding it whole and shifting |
| Crc32.TableIsRight | fr30xx_c/components/modules/crc/crc32.c:6-54 | every one of the 256 table entries is eight shifts of its index |
| Crc32.Do1IsSerial | fr30xx_c/components/modules/crc/crc32.c:57-57 | one table step is the eight bit steps of its byte |
| Crc32.CrcContinues | fr30xx_c/components/modules/crc/crc32.c:63-74 | crc32 of the second part continued from crc32 of the first is crc32 of the whole |
| Crc32.ComputeCrc32 | fr30xx_c/components/modules/crc/crc32.c:63-74 | the unrolled loop computes the bit-by-bit CRC of section 8 of RFC 1952 on every input and starting value |
| Crc32.ImageCrc | fr30xx_c/components/modules/ext_flash_program/ext_flash_program.c:204-218 | summing an image in chunks of 256 bytes gives its CRC |
| Crc32Detects.BurstDetected | fr30xx_c/components/modules/crc/crc32.c:63-74 | messages that differ, but only within four consecutive bytes, have different CRCs, whatever comes before and after |
| Crc32Detects.CheckValue | fr30xx_c/components/modules/crc/crc32.c:63-74 | the usual check value, 0xCBF43926 for the nine digits from 1 to 9 |

## Left out

- Hardware and I/O: register access, UART and flash drivers, sleep, exception dumps, scripts.
- Weak memory ordering: steps are sequentially consistent and critical sections are atomic.
- Tickless idle: stepping the tick count over a sleep is not modelled, and the exact wake-up statement is not made for it.
- Setting priorities explicitly, deleting tasks, aborting delays, tasks that block on a mutex while holding another: the stated invariants do not cover them.
- Queue sets, the queue registry, resetting a queue in use, static allocation, memory protection and trace hooks.
- Recursive mutex counts, and the case that a task takes a mutex it already holds.
- QueueSpec.NoLostWakeUp: does not cover runs in which a full semaphore is overwritten (`Queues.OverwrittenSemaphore`).
- Item bytes in queues and streams are copied one by one; alignment and the layout of structures are not modelled.
- Timer callbacks are only counted; what they do is not modelled, and commands they send are ordinary later commands. Changing the reload mode of a timer and pended function calls are left out.
- The timer service is assumed to look at the tick count at least once per 2^32 ticks while a timer runs.
- The waiting and notification loops of stream buffer calls: the model starts where the space or byte count is read.
- In event groups, the removal of a waiter by a timeout is a step of the model but has no method of its own, being the scheduler's.
- Heap exhaustion: where the code stops the system, the model returns a null address with the heap unchanged. Requests are assumed small enough that rounding up does not wrap 32 bits. The maximum over all heaps and the recorded return addresses are left out.
- Decoding, resampling and channel conversion: decoded PCM is arbitrary input; a frame is one sample per channel, a mono stream leaving the second at 0.
- Mixer.Ring.GetPcm: does not model the hand-over of decoders that wait for their last frames to be consumed, nor the requests for more data; both are notifications that do not touch the ring.
- Kernel.Scheduler.DelayUntil: interrupts between suspension and resume are ticks; for events in between, its parts `SuspendAll`, `DecideDelay`, `RemoveFromEventList` and `ResumeAll` have contracts of their own.
- Lists.List: the other components use sequences for their lists; that the pointer list behaves like them is proved in Lists.dfy, but no component's state holds the list objects themselves.
- Event lists that are not in priority order (those of event groups and of the timer service) are not among the scheduler's event lists. The step that readies a task off such a list while the scheduler is suspended is part of the scheduler runs (`KernelSpec.Release`); the `Kernel.Scheduler` class has no method for it.
- Requests for more data, decoder states other than started and input over, removal of the last output, and interrupts that read the ring in the middle of a mixing call: each call of the audio module is one step.
- The encoder, co-routines and scene handling: they would only add simpler versions of what is here.
