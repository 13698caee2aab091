# FreeRTOS kernel model

A model of the FreeRTOS V10.0.1 kernel in `FreeRTOS/`, in the configuration of
`config/FreeRTOSConfig.h` (preemption, time slicing, 32-bit ticks, mutexes, recursive mutexes,
timers, `vTaskSuspend`, 15 priorities, a timer queue of ten), and proofs of what it is for.

Every component has a specification made of functions on values, in-place code proved against that
specification where the source updates things in place, and theorems over every run:

| component | specification | in-place code | theorems |
|---|---|---|---|
| intrusive lists | `Rings` | `Lists` | `Rings` |
| scheduler and tick | `Kernel` | `Scheduler`, `KernelCensus` | `KernelLists`, `KernelTime`, `KernelRuns`, `KernelSteps`, `KernelTheorems`, `KernelResults`, `KernelWake`, `KernelPeriodic`, `KernelCensus`, `KernelEffects`, `KernelTurns`, `KernelRoundRobin` |
| timeouts | `Timeouts` | `Timeouts` | `Timeouts` |
| queue lock protocol | `QueueProtocol` | `QueueProtocol` | `QueueSystem`, `QueueCalls` |
| queue storage | `QueueStorage` | `QueueStorage` | `QueueStorage` |
| mutexes | `Mutexes` | `MutexObjects` | `MutexTheorems`, `MutexEffects` |
| software timers | `Timers` | `TimerTask` | `TimerTheorems`, `TimerOneShots`, `TimerCommands` |
| event groups | `EventGroups`, `BitMasks` | `EventGroups` | `EventGroups`, `EventBarrier` |
| stream and message buffers | `StreamBuffers` | `StreamBuffers` | `MessageBuffers`, `MessageRings` |

Times have two forms: what the kernel sees is 32 bits wide and wraps, what the specification says is
unbounded. Values that exist for the specification only (the unbounded clock, due times, counts of
interrupts, logs of calls) are kept beside the kernel's own and no branch reads them.

Concurrency is a choice of the next step. A blocking queue call is a chain of critical sections with
interrupts between any two of them; the scheduler's calls, ticks, interrupts and context switches are
steps of one machine; the writer and the reader of a message buffer alternate between any two bytes.

## Findings

- `FreeRTOS/list.c:84-86`: `vListInsertEnd` says that the new item will be the last to be visited. That
  is so only when the index is on the end marker; otherwise the item at the index comes after it
  (`Rings.InsertEndRotation`). So a task with k tasks ahead of it can be passed over more than k times
  (`Rings.InsertionsOvertake`); `Rings.OvertakingLaw` is the exact law, and
  `KernelRoundRobin.RoundRobin` applies it to runs of the kernel.
- `FreeRTOS/queue.c:1057` and `FreeRTOS/queue.c:1824`: the lock counts of a queue are `int8_t`; the
  128th interrupt in one lock window wraps them and strands a waiting task
  (`QueueSystem.WrappedLockCountStrandsReceiver`, `QueueSystem.LockCountLimit`,
  `QueueSystem.ReceiveLockCountLimit`).
- `FreeRTOS/queue.c:264-271`: a queue reset wakes one sender only, and can leave another waiting beside
  free slots (`QueueSystem.ResetStrandsSender`, `QueueSystem.ResetLimit`).
- `FreeRTOS/tasks.c:3976-3998`: priority inheritance does not outlast a change of holder
  (`MutexTheorems.RetakingLosesInheritance`, `MutexTheorems.TakeCovers`).
- `FreeRTOS/tasks.c:3212-3221`: `xTaskCheckForTimeOut` is right with a single wrap since its snapshot,
  however long the wait; a miss takes two wraps unseen (`Timeouts.MissTakesTwoWraps`,
  `Timeouts.MissedExpiry`, `Timeouts.ExpiryExact`).
- `FreeRTOS/tasks.c:1233-1262` and `FreeRTOS/timers.c:654-684`: `vTaskDelayUntil` and timer placement err
  only when a full turn of the counter has gone by unseen (`Timeouts.DelayUntilExact`,
  `Timeouts.LateCallBlocks`, `TimerTheorems.PlaceLimit`, `TimerTheorems.LateCommandIsFiled`).

## Model

| member | source | states |
|---|---|---|
| `QueueSystem.NoReceiverIsForgotten` | FreeRTOS/queue.c:1264-1377 | in every interleaving of blocking calls, resets, timeouts and interrupts, while a receiver is on xTasksWaitingToReceive the items in the queue number at most the receivers woken and not yet re-run plus cTxLock |
| `QueueSystem.NoSenderIsForgotten` | FreeRTOS/queue.c:744-920 | the same for waiting senders, free slots and cRxLock, in every run without xQueueGenericReset |
| `QueueSystem.QuiescentMeansEmpty` | FreeRTOS/queue.c:1264-1377 | when nobody holds the scheduler and nobody woken is still to run, a waiting receiver means an empty queue, resets included |
| `QueueSystem.QuiescentMeansFull` | FreeRTOS/queue.c:744-920 | and, without resets, a waiting sender means a full one |
| `QueueSystem.LockCountLimit` | FreeRTOS/queue.c:1052-1058 | an interrupt send to a locked queue on which a receiver waits keeps the promise if and only if cTxLock is below 127 or the woken receivers cover the items anyway |
| `QueueSystem.ReceiveLockCountLimit` | FreeRTOS/queue.c:1818-1825 | the same for an interrupt receive, cRxLock and a waiting sender |
| `QueueSystem.WrappedLockCountStrandsReceiver` | FreeRTOS/queue.c:1052-1058 | a run after which the 128th interrupt of a lock window wraps the int8_t count and the unlock leaves a receiver waiting beside 128 items |
| `QueueSystem.ResetLimit` | FreeRTOS/queue.c:256-283 | a reset keeps the promise to senders if and only if at most one sender waits or the woken ones already cover the queue, since it unblocks one sender only |
| `QueueSystem.ResetStrandsSender` | FreeRTOS/queue.c:264-271 | a run in which two senders block on a full queue of two and a reset leaves one waiting beside two free slots |
| `QueueSystem.StepKeeps` | FreeRTOS/queue.c:744-920 | each critical section, interrupt, timeout and reset keeps the control, waiting-list and promise invariants |
| `QueueCalls.AttemptExact` | FreeRTOS/queue.c:1264-1327 | an attempt is served exactly when there is an item, or room, or it overwrites; then the count moves by one, or not at all for a peek and for an overwritten item, one waiter leaves the head of one list and the locks stay; else nothing changes and the call returns or goes on to block |
| `QueueCalls.ItemsBalance` | FreeRTOS/queue.c:744-920 | over every run the count is what was put in less what was taken out or dropped by a reset, and never above the length |
| `QueueCalls.TimedOutReturns` | FreeRTOS/queue.c:1358-1373 | after an expired timeout, whatever others do in between, the fifth step of the call returns for a writer, and for a reader unless an item has arrived, for which it tries again |
| `QueueCalls.GivesUpExactly` | FreeRTOS/queue.c:1365-1373 | a reader returns empty-handed exactly when the queue is empty at that moment |
| `QueueProtocol.Queue.TrySend` | FreeRTOS/queue.c:746-842 | the accepting section of a send: refused when full and not overwriting, otherwise the count grows unless an item is overwritten and the first waiting receiver is woken |
| `QueueProtocol.Queue.TryReceive` | FreeRTOS/queue.c:1266-1300 | the accepting section of a receive: one item fewer and the first waiting sender woken, or nothing when empty |
| `QueueProtocol.Queue.TryPeek` | FreeRTOS/queue.c:1628-1667 | the accepting section of a peek: the items stay and the next waiting receiver is woken |
| `QueueProtocol.Queue.SendFromIsr` | FreeRTOS/queue.c:956-1062 | the interrupt send wakes a receiver on an unlocked queue and otherwise bumps the wrapping lock count |
| `QueueProtocol.Queue.ReceiveFromIsr` | FreeRTOS/queue.c:1775-1836 | the interrupt receive, with the same choice for senders |
| `QueueProtocol.Queue.Lock` | FreeRTOS/queue.c:232-244 | locking sets only lock counts that were unlocked |
| `QueueProtocol.Queue.UnlockTx` | FreeRTOS/queue.c:2145-2223 | the loop releases min(cTxLock, waiting receivers) tasks, in list order, and unlocks |
| `QueueProtocol.Queue.UnlockRx` | FreeRTOS/queue.c:2226-2253 | the loop releases min(cRxLock, waiting senders) tasks, in list order, and unlocks |
| `QueueProtocol.Queue.Reset` | FreeRTOS/queue.c:247-296 | a reset empties, unlocks and wakes at most one sender |
| `QueueStorage.Storage.constructor` | FreeRTOS/queue.c:255-258 | a new storage area is empty, with the read pointer on the last slot |
| `QueueStorage.Storage.CopyDataToQueue` | FreeRTOS/queue.c:2040-2116 | at byte level a back send appends the item to the contents, a front send prepends it and an overwrite of a one-slot queue replaces it, keeping pcWriteTo one plus the count after pcReadFrom |
| `QueueStorage.Storage.CopyDataFromQueue` | FreeRTOS/queue.c:2119-2134 | the read pointer moves on one slot, wrapping, and the bytes there are the oldest item |
| `QueueStorage.Storage.Receive` | FreeRTOS/queue.c:1274-1284 | the item handed out followed by what is left is what was there |
| `QueueStorage.Storage.Peek` | FreeRTOS/queue.c:1634-1645 | the oldest item is handed out and the contents are as before |
| `QueueStorage.Storage.Perform` | FreeRTOS/queue.c:752-759 | any operation, accepted or refused, acts on the contents exactly as on a bounded deque |
| `QueueStorage.WriteSlot` | FreeRTOS/queue.c:2066-2069 | overwriting the bytes of one slot leaves every other slot alone |
| `QueueStorage.PushBack` | FreeRTOS/queue.c:2066-2078 | writing at the write slot extends the contents at the back |
| `QueueStorage.PushFront` | FreeRTOS/queue.c:2081-2090 | writing at the read slot and stepping it back extends the contents at the front |
| `QueueStorage.PopFront` | FreeRTOS/queue.c:2119-2134 | stepping the read slot on drops exactly the first item |
| `QueueStorage.FirstInFirstOut` | FreeRTOS/queue.c:2040-2134 | over any run with back sends only, initial contents plus accepted items equal received items plus what is left, in order |
| `QueueStorage.NothingIsLost` | FreeRTOS/queue.c:2040-2134 | over any run of back and front sends, initial contents plus accepted items are, as multisets, what was received plus what is left |
| `QueueStorage.UrgentIsNext` | FreeRTOS/queue.c:2081-2116 | an item sent to the front is received next, and an overwritten queue holds that item alone |
| `MutexTheorems.PriorityInheritanceHolds` | FreeRTOS/tasks.c:3872-4134 | in every reachable state a task that has waited for a mutex since its holder took it does not outrank that holder, whoever else timed out and disinherited |
| `MutexTheorems.MutexAccounting` | FreeRTOS/queue.c:1420-1441 | in every reachable state uxMutexesHeld is the number of mutexes held, the count is zero exactly when there is a holder, a task holding none runs at its base priority, and the recursive count is the holder's takes minus gives |
| `MutexTheorems.TakeCovers` | FreeRTOS/queue.c:1420-1441 | a new holder covers the tasks still waiting if and only if it is not below the head of the wait list |
| `MutexTheorems.RetakingLosesInheritance` | FreeRTOS/tasks.c:3959-4032 | a concrete run in which a task gives and retakes a mutex and ends up below a task still waiting |
| `MutexTheorems.StepKeeps` | FreeRTOS/queue.c:1410-1590 | taking, blocking, giving, recursive calls, timeouts and giving up each keep the accounting, ordering and inheritance invariants |
| `MutexTheorems.Blockable` | FreeRTOS/queue.c:1512-1526 | a task that finds the mutex taken finds a holder to pass its priority to |
| `MutexTheorems.HeadIsHighest` | FreeRTOS/queue.c:2015-2035 | the priority read off the head of the wait list is the highest of the waiting tasks |
| `MutexTheorems.LoweredStillCovers` | FreeRTOS/tasks.c:4039-4106 | disinheriting after a timeout leaves the holder at or above every waiter it covered, of any of its mutexes |
| `MutexTheorems.GiverKeepsPriority` | FreeRTOS/tasks.c:3972-4010 | giving one of several mutexes keeps the inherited priority |
| `MutexEffects.GiveUpSettlesHolder` | FreeRTOS/tasks.c:4051-4078 | in every reachable state, a give-up after inheritance leaves a holder of this one mutex at or above its base and every waiter, and at its base or the priority of some waiter; it changes nobody else, and nobody without inheritance |
| `MutexEffects.InheritanceIsRecorded` | FreeRTOS/queue.c:1512-1526 | xInheritanceOccurred of a task that waits on the present holder is set if and only if its base priority is above the base priority of the holder |
| `MutexEffects.PrioritiesAreBorrowed` | FreeRTOS/tasks.c:3872-4134 | in every reachable state the priority of a task is the base priority of some task, so nothing is raised higher than anybody asked for |
| `MutexEffects.BlockRaisesHolder` | FreeRTOS/tasks.c:3872-3950 | blocking raises the holder to the caller if it is below it and changes nobody else |
| `MutexEffects.BlockJoins` | FreeRTOS/tasks.c:2981-2996 | a task that blocks joins the wait list behind those at least as high as itself and in front of those below it |
| `MutexEffects.TimeOutThenCheck` | FreeRTOS/queue.c:1554-1592 | a task that times out gives up exactly when the mutex is still held, keeping its record of inheritance |
| `MutexEffects.RecursiveTake` | FreeRTOS/queue.c:629-664 | a recursive take raises the balance of takes and gives by one, and the mutexes held only the first time |
| `MutexEffects.RecursiveGive` | FreeRTOS/queue.c:574-620 | a recursive give lowers it by one, and frees the mutex exactly when that brings it to nought |
| `MutexObjects.TaskControlBlock.PriorityInherit` | FreeRTOS/tasks.c:3872-3950 | the holder is raised to the caller's priority if it was below it; the result tells whether it now runs on a borrowed priority |
| `MutexObjects.TaskControlBlock.PriorityDisinherit` | FreeRTOS/tasks.c:3959-4032 | one mutex fewer, and back to the base priority when it was the last; a switch is asked for exactly when the priority changed |
| `MutexObjects.TaskControlBlock.PriorityDisinheritAfterTimeout` | FreeRTOS/tasks.c:4039-4134 | with one mutex held the priority becomes the greater of the base and the highest waiting priority |
| `MutexObjects.MutexQueue.TryTake` | FreeRTOS/queue.c:1410-1463 | the taking section takes objects that represent a system to ones that represent the system after Take, or changes nothing |
| `MutexObjects.MutexQueue.BlockOn` | FreeRTOS/queue.c:1512-1533 | inheritance and the search of the wait list take the represented system to Block, for any holder, the caller included |
| `MutexObjects.PlaceIsInsertByValue` | FreeRTOS/list.c:146-155 | the place the search stops at is where the ordered insertion of the theorems inserts |
| `MutexObjects.MutexQueue.Return` | FreeRTOS/queue.c:2049-2064 | the represented system goes to Give, and the head of the wait list is woken |
| `MutexObjects.MutexQueue.AfterTimeout` | FreeRTOS/queue.c:1562-1584 | the represented holder is lowered as the theorems say |
| `MutexObjects.MutexQueue.TryTakeRecursive` | FreeRTOS/queue.c:629-664 | the holder only counts; another caller takes the represented mutex and counts |
| `MutexObjects.MutexQueue.GiveRecursive` | FreeRTOS/queue.c:574-620 | only the holder may give; the represented mutex is returned when the count unwinds to zero |
| `TimerTheorems.AutoReloadNeverDrifts` | FreeRTOS/timers.c:462-499 | after any run, the callbacks of an auto-reload timer started at C with period P are for C+P, C+2P, ... in order, none missing, repeated or early, provided its reload sends succeed, nobody else commands it and the daemon is never a full turn behind |
| `TimerTheorems.NoBeatIsDropped` | FreeRTOS/timers.c:747-777 | whenever the daemon has drained its commands and sees nothing expired, the callbacks made number exactly the periods elapsed |
| `TimerOneShots.OneShotFiresOnce` | FreeRTOS/timers.c:462-499 | after any run, a one-shot timer started at C with period P has had no callback or exactly one, for C+P, whether the expired list, the wrap loop or a late start served it |
| `TimerOneShots.OneShotFires` | FreeRTOS/timers.c:747-777 | once its command is served and nothing has expired, it has fired if and only if the time is C+P or later, and then it is on no list |
| `TimerCommands.StopExact` | FreeRTOS/timers.c:781-785 | a stop takes the timer off its list with no callback, and takes the one command |
| `TimerCommands.StopLeavesOthers` | FreeRTOS/timers.c:722-785 | short of a wrap a stop leaves every other timer on its list, with its commands and without a callback |
| `TimerCommands.StoppedIsSilent` | FreeRTOS/timers.c:781-785 | over any run in which nobody starts it again, a stopped timer makes no callback and stays off the lists |
| `TimerCommands.ChangePeriodExact` | FreeRTOS/timers.c:787-799 | the new period is recorded and the timer is due that long after the command was seen, in the list of that epoch |
| `TimerCommands.OneListEach` | FreeRTOS/timers.c:722-734 | whatever the commands, a timer is on one list at most |
| `TimerCommands.ServesWhatIsDue` | FreeRTOS/timers.c:538-621 | short of a wrap the daemon makes a callback exactly when some timer is due, and for the one due first |
| `TimerCommands.CommandsAreServedInOrder` | FreeRTOS/timers.c:381-421 | commands are served first in, first out, and one is lost only with ten waiting |
| `TimerTheorems.SwitchCalls` | FreeRTOS/timers.c:835-891 | the wrap loop calls an auto-reload timer at expiry e exactly floor((2^32-1-e)/P)+1 times |
| `Timers.SwitchOneUsesHeadroom` | FreeRTOS/timers.c:846-886 | every turn of the wrap loop strictly decreases the sum of 2^32 minus expiry over the list |
| `TimerTheorems.PlaceExact` | FreeRTOS/timers.c:647-685 | for a command less than a full turn old the choice between expired, current list and overflow list is the right one in unbounded time |
| `TimerTheorems.PlaceLimit` | FreeRTOS/timers.c:654-684 | expiry is judged rightly if and only if the command is less than a full turn old or its residue has run out |
| `TimerTheorems.LateCommandIsFiled` | FreeRTOS/timers.c:654-684 | a concrete command, a full turn late, that is filed as still to expire |
| `TimerTheorems.SampleTimed` | FreeRTOS/timers.c:624-644 | sampling the time keeps every entry in the list of its epoch and never calls back early, switching on a wrap |
| `TimerTheorems.SwitchTracks` | FreeRTOS/timers.c:846-890 | the wrap loop keeps every timer on its beat, restarting by command with the last expiry served |
| `TimerTheorems.RunTracks` | FreeRTOS/timers.c:502-535 | every run of the daemon keeps every timer on its beat |
| `TimerTask.TimerTask.SwitchTimerLists` | FreeRTOS/timers.c:835-891 | the loop in place does what the specification says and leaves the overflow list as the current one |
| `TimerTask.TimerTask.SampleTimeNow` | FreeRTOS/timers.c:624-644 | the in-place sampling, with the switch on a wrap |
| `TimerTask.TimerTask.InsertTimerInActiveList` | FreeRTOS/timers.c:647-685 | the in-place insertion into the list that the wrapped comparison selects |
| `TimerTask.TimerTask.ProcessExpiredTimer` | FreeRTOS/timers.c:462-499 | the in-place processing of the head: reinsert or restart by command, then call back |
| `TimerTask.TimerTask.ProcessTimerOrBlockTask` | FreeRTOS/timers.c:538-621 | nothing is processed when the lists were switched or the head has not expired; otherwise the block time reaches exactly to the head, is endless when both lists are empty, and is zero only for an empty list at tick zero |
| `TimerTask.TimerTask.ProcessReceivedCommand` | FreeRTOS/timers.c:688-830 | one command in place: off the lists, sample, then start, stop or change period |
| `TimerTask.TimerTask.SendCommand` | FreeRTOS/timers.c:381-421 | a command is lost exactly when the queue of ten is full |
| `KernelWake.ExactTimedWake` | FreeRTOS/tasks.c:4983-5054 | a task that blocks at time T for n ticks and is not otherwise woken is delayed in every state before tick T+n is processed, and the step that processes it readies it, across wraps and suspended schedulers |
| `KernelWake.PeriodicWake` | FreeRTOS/tasks.c:1264-1279 | a vTaskDelayUntil call that finds P+I ahead puts the task to sleep until exactly P+I, in either delayed list |
| `KernelPeriodic.PeriodicRun` | FreeRTOS/tasks.c:1215-1292 | over any run of the kernel in which a task calls vTaskDelayUntil repeatedly, each call less than a full turn after the wake time before it, call k blocks exactly when P0+k*I is ahead, sleeps in every state before that tick and is ready at the step that processes it |
| `KernelPeriodic.ClockGrows` | FreeRTOS/tasks.c:2656-2663 | no step turns the clock back |
| `KernelTime.TickExact` | FreeRTOS/tasks.c:2646-2755 | a processed tick readies exactly the delayed tasks due at the new time and takes them off their event lists; nobody else moves |
| `KernelTime.UnblockedExact` | FreeRTOS/tasks.c:2679-2722 | the guarded scan of the head of one list finds exactly the tasks that are due |
| `KernelTime.EmptyAtWrap` | FreeRTOS/tasks.c:215-227 | the current delayed list is empty whenever the tick is about to wrap |
| `KernelResults.DelayedLists` | FreeRTOS/tasks.c:3801-3822 | in every reachable state xNextTaskUnblockTime is at or below every wake value in the current list, and no delayed task is overdue |
| `KernelResults.PreemptiveSafety` | FreeRTOS/tasks.c:2743-2812 | in every reachable state with the scheduler not suspended and no switch requested, the running task is ready and no ready task outranks it |
| `KernelTurns.TimeSlice` | FreeRTOS/tasks.c:2757-2771 | in every reachable state with the scheduler not suspended and another task ready at the running task's priority, a tick asks for a switch |
| `KernelTurns.TickSwitchesExact` | FreeRTOS/tasks.c:2743-2812 | a processed tick asks for a switch if and only if a task due is not below the running task, two tasks are ready at the running priority, or a yield is pending |
| `KernelTurns.SwitchTakesNext` | FreeRTOS/tasks.c:140-165 | a switch takes the next entry of the list of the highest ready priority and turns that list, and no other, on by one |
| `KernelRoundRobin.RoundRobin` | FreeRTOS/tasks.c:140-165 | over any run in which t stays ready at p and no ready task is above p, t is chosen, or its list changed by operations that pass it over and the choices made are at most the tasks ahead of it plus the insertions in front of it |
| `KernelRoundRobin.TurnWithin` | FreeRTOS/tasks.c:157-161 | with n tasks ahead and nobody joining its list, a task of the highest ready priority runs within n+1 switches |
| `KernelRoundRobin.StepPasses` | FreeRTOS/tasks.c:2908-2975 | each call, tick, interrupt and switch changes the ready list of t by the list operations named, one selection for a switch that chooses and none otherwise |
| `KernelEffects.StepMoves` | FreeRTOS/tasks.c:1641-1905 | after any enabled action of a reachable state each task is on exactly the stated lists with the stated priority: suspended, terminated, delayed, pending, woken or as it was |
| `KernelEffects.StepControls` | FreeRTOS/tasks.c:3055-3154 | after any action but a resume or a choice, who runs, the suspension count, the tasks, xYieldPending and the requested switch are exactly as stated |
| `KernelEffects.ResumeControls` | FreeRTOS/tasks.c:2116-2223 | a resume asks for a switch exactly if one was asked for, the caller yields, or the outermost resume finds a yield pending; with no tick pended that is exactly when one was or a pending task is not below the running one |
| `KernelEffects.NextUnblockExact` | FreeRTOS/tasks.c:3801-3822 | after a tick that unblocks somebody, and after a suspension, xNextTaskUnblockTime is the least wake value of the current list, or the maximum |
| `KernelResults.BootRunsNewest` | FreeRTOS/tasks.c:1069-1077 | the task that runs first is the newest of those of the highest priority |
| `KernelResults.SelectionIsHighest` | FreeRTOS/tasks.c:140-165 | uxTopReadyPriority bounds every ready priority, and a switch picks a ready task of the highest one |
| `KernelResults.TickConservation` | FreeRTOS/tasks.c:2788-2790 | the unbounded tick count plus uxPendedTicks is the number of tick interrupts; nothing is pended or pending outside a suspended section |
| `KernelResults.ResumeCatchesUp` | FreeRTOS/tasks.c:2130-2198 | after the outermost xTaskResumeAll no tick is pended, no task pending, those that were are ready at their own priority, and no delayed task is overdue |
| `KernelResults.StatePartition` | FreeRTOS/tasks.c:1641-1687 | every task is on exactly one state list, ready tasks on that of their priority, and no ready task is on an object's wait list |
| `KernelCensus.Census` | FreeRTOS/tasks.c:2466-2533 | in every reachable state the lists walked by uxTaskGetSystemState hold every task once, uxCurrentNumberOfTasks in all |
| `KernelTheorems.StepKeeps` | FreeRTOS/tasks.c:2043-2223 | every call, tick, interrupt and switch of the scheduler model keeps the whole invariant |
| `KernelTheorems.BlockKeeps` | FreeRTOS/tasks.c:2981-3017 | placing the running task on an event list and a delayed list keeps the invariant, for any finite wait and for an endless one |
| `KernelSteps.RemoveFromEventKeeps` | FreeRTOS/tasks.c:3055-3120 | waking the head of an event list keeps the invariant, with the scheduler suspended or not |
| `KernelSteps.SetPriorityKeeps` | FreeRTOS/tasks.c:1477-1634 | changing a priority keeps the invariant, preemption included |
| `KernelSteps.SuspendTaskKeeps` | FreeRTOS/tasks.c:1641-1735 | suspending a task in any state keeps the invariant |
| `KernelSteps.ResumeTaskKeeps` | FreeRTOS/tasks.c:1788-1834 | resuming a task keeps the invariant |
| `KernelSteps.ResumeFromIsrKeeps` | FreeRTOS/tasks.c:1842-1906 | resuming from an interrupt keeps the invariant |
| `KernelSteps.DeleteSelfKeeps` | FreeRTOS/tasks.c:1159-1179 | a task that deletes itself is counted until it is cleaned up |
| `KernelSteps.DeleteOtherKeeps` | FreeRTOS/tasks.c:1180-1188 | deleting another task keeps the invariant |
| `KernelSteps.CleanUpKeeps` | FreeRTOS/tasks.c:3539-3565 | cleaning up after a deleted task keeps the invariant |
| `KernelSteps.CreateKeeps` | FreeRTOS/tasks.c:1038-1117 | creating a task while the scheduler runs keeps the invariant |
| `KernelResults.BootKeeps` | FreeRTOS/tasks.c:1042-1093 | tasks created before the scheduler starts are all ready, and the newest of the highest of them will run first |
| `Scheduler.Scheduler.IncrementTick` | FreeRTOS/tasks.c:2646-2812 | the in-place tick refines the specification and returns whether a switch is needed |
| `Scheduler.Scheduler.UnblockExpired` | FreeRTOS/tasks.c:2679-2754 | the loop over the head of the delayed list readies exactly its expired items and resets the cached time |
| `Scheduler.Scheduler.ResumeAll` | FreeRTOS/tasks.c:2116-2223 | the in-place loops over the pending list and the pended ticks refine the specification |
| `Scheduler.Scheduler.MovePending` | FreeRTOS/tasks.c:2138-2168 | the pending list is emptied from its head, raising xYieldPending for a task not below the running one |
| `Scheduler.Scheduler.ProcessPended` | FreeRTOS/tasks.c:2175-2198 | the pended ticks are replayed one by one |
| `Scheduler.Scheduler.SwitchContext` | FreeRTOS/tasks.c:2908-2960 | the in-place switch refines the specification |
| `Scheduler.Scheduler.FindTop` | FreeRTOS/tasks.c:152-159 | the downward scan ends at a list that is not empty |
| `Scheduler.Scheduler.AddCurrentTaskToDelayedList` | FreeRTOS/tasks.c:4983-5054 | the in-place delay, with 32-bit wake times, both lists and the endless wait |
| `Scheduler.Scheduler.RemoveFromEventList` | FreeRTOS/tasks.c:3055-3120 | the in-place wake of the head of an event list |
| `Scheduler.Scheduler.ResetNextTaskUnblockTime` | FreeRTOS/tasks.c:3801-3822 | the cached time is the head's wake value, or the maximum |
| `Scheduler.Scheduler.GetSystemState` | FreeRTOS/tasks.c:2466-2533 | with room enough every task is reported once, otherwise none is; each list walked has its index moved on by one |
| `KernelCensus.ListTasksWithinSingleList` | FreeRTOS/tasks.c:3666-3692 | the walk of one list reports its tasks in rotation order and moves its index on by one |
| `Rings.OvertakingLaw` | FreeRTOS/list.c:74-100 | over any operations that pass an item over, its distance from selection changes by exactly one per selection, per removal ahead of it and, the other way, per insertion made while the index is on it |
| `Rings.BoundedOvertaking` | FreeRTOS/tasks.c:161-163 | an item with k ahead of it is passed over by at most k selections plus the insertions made while the index was on it |
| `Rings.InsertionsOvertake` | FreeRTOS/list.c:74-100 | a concrete list in which such an insertion makes an item with one ahead of it miss two selections |
| `Rings.InsertEndRotation` | FreeRTOS/list.c:84-94 | a new item is last in the rotation if and only if the index is on the end marker; otherwise the item at the index stays behind it |
| `Rings.InsertKeepsIndex` | FreeRTOS/list.c:103-167 | an ordered insertion leaves the index on the entry it stood on |
| `Rings.NextRotates` | FreeRTOS/tasks.c:161-163 | the next entry is the first of the rotation and goes to its end |
| `Rings.RemoveRotation` | FreeRTOS/list.c:170-196 | removing an item leaves the rotation order of the others |
| `Lists.List.constructor` | FreeRTOS/list.c:36-60 | a new list is empty and its end marker points at itself |
| `Lists.List.InsertEnd` | FreeRTOS/list.c:74-100 | the pointer updates insert the item in front of the index |
| `Lists.List.Insert` | FreeRTOS/list.c:103-167 | the pointer updates insert the item after every item whose value is not larger, the end marker's own value included |
| `Lists.List.FindPlace` | FreeRTOS/list.c:122-155 | the search settles after the last item whose value is not larger |
| `Lists.List.Remove` | FreeRTOS/list.c:170-196 | the pointer updates take the item out and move an index on it back |
| `Lists.List.NextEntry` | FreeRTOS/tasks.c:161-163 | the index advances, skipping the end marker |
| `EventGroups.NeverStranded` | FreeRTOS/event_groups.c:504-595 | after any calls and timeouts, no task on xTasksWaitingForBits has its condition met by uxEventBits |
| `EventGroups.SetBitsExact` | FreeRTOS/event_groups.c:527-586 | setting bits releases exactly the waiters satisfied by the old and new bits together |
| `EventGroups.ClearMaskExact` | FreeRTOS/event_groups.c:562-590 | a bit is cleared exactly when a released task that clears on exit waited for it |
| `EventGroups.BitsAfterSet` | FreeRTOS/event_groups.c:527-590 | a bit is left set exactly when it was set before or by the call and no released waiter that clears on exit waited for it |
| `EventGroups.BitsAfterWait` | FreeRTOS/event_groups.c:327-371 | a wait whose condition is met clears the bits it waited for exactly if asked to; else it leaves the bits and joins the list, with its condition, exactly if it may block |
| `EventGroups.BitsAfterSync` | FreeRTOS/event_groups.c:191-232 | a rendezvous that is complete leaves its bits cleared; else what setting its bits leaves, with the caller on the list exactly if it may block |
| `EventGroups.BitsAfterTimeout` | FreeRTOS/event_groups.c:403-425 | a task that timed out clears its bits exactly when its condition is met after all and it asked for that |
| `EventGroups.ConditionByBits` | FreeRTOS/event_groups.c:656-688 | the wait condition bit by bit: some wanted bit is set, or every one |
| `EventGroups.OrderIndependent` | FreeRTOS/event_groups.c:527-590 | what is released, kept and cleared does not depend on the order of the list |
| `EventGroups.PackRoundTrip` | FreeRTOS/event_groups.c:346-371 | a condition packed into an event list item unpacks to itself |
| `EventGroups.ReleasedRoundTrip` | FreeRTOS/event_groups.c:574-579 | a released task reads back the bits that released it |
| `EventGroups.EventGroup.SetEventBits` | FreeRTOS/event_groups.c:504-595 | the traversal that removes items as it goes refines the specification and stamps each released task with the bits |
| `EventGroups.EventGroup.WaitForBits` | FreeRTOS/event_groups.c:314-382 | a task blocks only with its condition unmet; otherwise bits are cleared if asked |
| `EventGroups.EventGroup.SyncBits` | FreeRTOS/event_groups.c:191-234 | the rendezvous sets its bits, then clears and returns them, blocks, or returns what is set |
| `EventGroups.EventGroup.ClearEventBits` | FreeRTOS/event_groups.c:446-472 | the bits are cleared and the former value returned |
| `EventBarrier.BarrierSafe` | FreeRTOS/event_groups.c:176-293 | with a distinct bit per task and Sync only, no task's r-th call returns before every task has made its r-th call, and every value returned holds all the bits |
| `EventBarrier.LastArrivalClears` | FreeRTOS/event_groups.c:191-206 | the last arrival returns at once, releases the others and leaves all the bits cleared |
| `EventBarrier.CompletesWhenAllWait` | FreeRTOS/event_groups.c:191-197 | a call completes the rendezvous exactly when every other task is waiting |
| `MessageBuffers.MessagesArriveWhole` | FreeRTOS/stream_buffer.c:639-688 | in every interleaving of one writer and one reader between index updates, the buffer holds the rest of one message, whole frames and at most a bare length, and the messages received are the first ones sent, whole and in order |
| `MessageBuffers.LookFinds` | FreeRTOS/stream_buffer.c:1121-1138 | in every reachable state a reader that looks sees more than a length exactly when a whole message is there |
| `MessageBuffers.ReadTakesFirst` | FreeRTOS/stream_buffer.c:852-899 | it takes the first message if that fits its buffer, and otherwise leaves the buffer as it was |
| `MessageBuffers.ReadDelivers` | FreeRTOS/stream_buffer.c:852-899 | and hands over exactly that message |
| `MessageBuffers.WriterSends` | FreeRTOS/stream_buffer.c:639-688 | a message is sent exactly when it and its length fit the space seen, and once announced it is completed |
| `MessageRings.MessagesArriveWhole` | FreeRTOS/stream_buffer.c:1020-1118 | the same with every byte copied in a step of its own and every index update another: bytes being laid down lie in the free part, bytes being taken are the first of the contents |
| `MessageRings.StepRefines` | FreeRTOS/stream_buffer.c:1020-1118 | each copy of a byte leaves the contents as they are, and each update of an index is the step of the abstract buffer that it publishes |
| `MessageBuffers.StepKeeps` | FreeRTOS/stream_buffer.c:852-899 | each step of the writer and of the reader keeps that form |
| `StreamBuffers.StreamBuffer.constructor` | FreeRTOS/stream_buffer.c:219-262 | a new buffer is empty and offers the size asked for |
| `StreamBuffers.StreamBuffer.WriteBytes` | FreeRTOS/stream_buffer.c:1020-1063 | the split copy appends the bytes to the contents |
| `StreamBuffers.StreamBuffer.ReadBytes` | FreeRTOS/stream_buffer.c:1066-1118 | the split copy takes the first bytes off the contents, as many as asked for and available |
| `StreamBuffers.StreamBuffer.WriteMessage` | FreeRTOS/stream_buffer.c:639-688 | a message is written whole with its length or not at all; a stream takes what fits |
| `StreamBuffers.StreamBuffer.ReadMessage` | FreeRTOS/stream_buffer.c:852-899 | a message is read whole, or put back if the caller's buffer is too small; a stream gives what is there |
| `StreamBuffers.BytesBetween` | FreeRTOS/stream_buffer.c:1121-1138 | the wrapped difference is the number of bytes from tail to head |
| `StreamBuffers.SpaceBetween` | FreeRTOS/stream_buffer.c:451-472 | the free space and the bytes held add up to one less than the length |
| `StreamBuffers.LengthRoundTrip` | FreeRTOS/stream_buffer.c:867-871 | a length survives being stored as bytes |
| `Timeouts.DeadlineConserved` | FreeRTOS/tasks.c:3177-3237 | over any calls with at most one wrap of the counter from each to the next, snapshot plus remaining ticks stays the original deadline and expiry is first reported by the first call at or after it |
| `Timeouts.ExpiryExact` | FreeRTOS/tasks.c:3212-3233 | expiry is reported rightly unless, and only unless, a full turn or more has passed, the elapsed time modulo 2^32 is short of the wait, and the counter is below the snapshot again or the wraps number a multiple of 2^32 |
| `Timeouts.EndlessWaitNeverExpires` | FreeRTOS/tasks.c:3201-3208 | over any sequence of calls at any times a wait of portMAX_DELAY never expires and changes neither the wait nor the snapshot |
| `Timeouts.DeadlineKept` | FreeRTOS/tasks.c:3212-3233 | with at most one wrap since the snapshot the verdict is right, what remains keeps the deadline, and an expired wait is returned as zero unless a full turn has passed |
| `Timeouts.MissTakesTwoWraps` | FreeRTOS/tasks.c:3212-3220 | with a single wrap since the snapshot no expiry is missed |
| `Timeouts.MissedExpiry` | FreeRTOS/tasks.c:3212-3233 | a concrete pair of times, two wraps apart, at which expiry is missed |
| `Timeouts.TimeOut.CheckForTimeOut` | FreeRTOS/tasks.c:3177-3237 | the in-place check refines the specification |
| `Timeouts.NoDrift` | FreeRTOS/tasks.c:1224-1279 | successive calls of vTaskDelayUntil block exactly when P0+k*I is ahead and then for exactly the time until it |
| `Timeouts.DelayUntilExact` | FreeRTOS/tasks.c:1231-1262 | the wrapped comparison decides rightly if and only if the call is less than a full turn after the previous wake time or its residue has reached the increment |
| `Timeouts.LateCallBlocks` | FreeRTOS/tasks.c:1231-1262 | a concrete call a full turn late that blocks for a wake time long past |
| `Timeouts.PeriodicTask.DelayUntil` | FreeRTOS/tasks.c:1215-1292 | the in-place decision, the updated wake time and the block time |
| `Timeouts.ZeroWaitOnlyAtTickZero` | FreeRTOS/timers.c:552-574 | the timer task waits for zero ticks if and only if its current list is empty and the tick count is zero |

## Left out

- Port-optimised task selection: the ARM port selects it by default; the generic selection of `tasks.c` is modelled instead.
- Queue sets, tickless idle, the queue registry, co-routines, MPU support, trace, statistics and thread-local storage: disabled or without a hard property.
- Memory allocation and creation failures: tasks, queues, timers and buffers exist when they are used.
- Task notifications, and the blocking of stream buffer calls, which is built on them.
- Interrupts and critical sections below the level of one critical section: each is one step.
- `configASSERT` conditions are taken as what callers owe: no blocking with the scheduler suspended, an overwrite only on a queue of one, no control bits in an event mask, no empty message.
- xTaskAbortDelay, vTaskEndScheduler and event group deletion.
- QueueSystem.NoReceiverIsForgotten: at most 127 interrupt operations per lock window, and no task is deleted or suspended between being woken and running again; positions in the waiting lists are arbitrary, which covers priority order.
- QueueCalls.ItemsBalance: at most 127 interrupt operations per lock window, as for the theorems of `QueueSystem`.
- QueueCalls.TimedOutReturns: that the five steps are taken is up to the scheduler.
- QueueSystem.NoSenderIsForgotten: with the same assumptions, and no queue reset.
- MutexTheorems.PriorityInheritanceHolds: no priority is set by the application, and nobody waits for a mutex while holding one; ready lists are left to `Kernel`.
- MutexTheorems.MutexAccounting: only holders give, no holder is deleted and no mutex is reset.
- KernelResults.PreemptiveSafety: runs without mutexes, since a mutex give consults its own yield request only when nobody waits.
- KernelRoundRobin.RoundRobin: the walk of `uxTaskGetSystemState`, which turns the lists it visits, is not among the steps of a run; `Scheduler.Scheduler.GetSystemState` shows how far it turns them.
- KernelEffects.ResumeControls: with ticks pended, whether the replayed ticks ask for a yield is given by `KernelTurns.TickSwitchesExact`, tick by tick.
- KernelWake.ExactTimedWake: a wait of zero ticks at the last tick before a wrap is not among the steps; `Timeouts.ZeroWaitOnlyAtTickZero` shows that the kernel makes none.
- QueueProtocol.Queue.TrySend: whether the woken receiver outranks the caller is decided in `Kernel.RemoveFromEvent`; the mutex give is `MutexObjects.MutexQueue.Return`.
- QueueProtocol.Queue.TryReceive: the yield for a woken sender is decided in `Kernel.RemoveFromEvent`.
- QueueProtocol.Queue.TryPeek: the yield for a woken reader is decided in `Kernel.RemoveFromEvent`.
- QueueProtocol.Queue.SendFromIsr: pxHigherPriorityTaskWoken is the result of `Kernel.RemoveFromEvent`.
- QueueProtocol.Queue.ReceiveFromIsr: pxHigherPriorityTaskWoken is the result of `Kernel.RemoveFromEvent`.
- QueueProtocol.Queue.Reset: a queue in use; the storage pointers are those of `QueueStorage.Storage.constructor`.
- MutexObjects.TaskControlBlock.PriorityInherit: ready lists are left to `Kernel`, and the event list item is not in use by an event group.
- MutexObjects.TaskControlBlock.PriorityDisinherit: ready lists are left to `Kernel`.
- MutexObjects.TaskControlBlock.PriorityDisinheritAfterTimeout: ready lists are left to `Kernel`, and the event list item is not in use by an event group.
- MutexObjects.MutexQueue.TryTake: nobody waits to give a mutex, and the timeout is that of `Timeouts`.
- MutexObjects.MutexQueue.TryTakeRecursive: what follows when it must block is `MutexObjects.MutexQueue.BlockOn`.
- KernelSteps.SetPriorityKeeps: no priority is inherited in these runs, and the order of event lists is not modelled there.
- TimerTask.TimerTask.SendCommand: sends that do not block.
- Timeouts.PeriodicTask.DelayUntil: the decision; the placement and the resume are steps of `Kernel`, joined in `KernelPeriodic.PeriodicRun`.
- KernelCensus.Census: the fields of a task status entry other than the task itself are not modelled.
- Scheduler.Scheduler.GetSystemState: reports tasks only, and treats the walk, made with the scheduler suspended, as one step.
- TimerTask.TimerTask.ProcessTimerOrBlockTask: suspending and resuming the scheduler around it are not modelled.
- TimerTheorems.AutoReloadNeverDrifts: the stated provisos are those of the source; `lost` records reload commands that found the queue full.
- TimerOneShots.OneShotFires: the same provisos, and the timer is commanded once.
- TimerTask.TimerTask.ProcessReceivedCommand: one turn of the command loop; pended function calls and timer deletion are not modelled.
- MessageRings.MessagesArriveWhole: a receive whose buffer is too small frees nothing, in one step, as below.
- MessageBuffers.MessagesArriveWhole: a receive whose buffer is too small is one step, since the source moves the tail back after having published it.
- StreamBuffers.StreamBuffer.ReadMessage: trigger levels and wake-ups are not modelled.
- QueueStorage.Storage.CopyDataToQueue: queues with items of at least one byte; semaphores hold no bytes and are covered by `QueueProtocol`.
- Timeouts.ZeroWaitOnlyAtTickZero: relates the head of the timer list to the time as prvGetNextExpireTime and the test before it leave them.
- xEventGroupSync and xEventGroupWaitBits after a timeout: the final critical section is modelled (`EventGroups.AfterTimeout`), the bookkeeping of the event list item is not.
