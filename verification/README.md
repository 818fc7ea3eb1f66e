# mini-async-runtime in Dafny

A model of an async runtime and proofs about it. The runtime has two halves: a pool of worker
threads that share one ready queue, elect an I/O driver with a token and park on a condvar; and a
single-threaded `block_on` loop. Both use one epoll reactor with one-shot registrations.

`dafny verify dfyconfig.toml` checks everything.

## How it is modelled

**Threads.** The pool is a transition system (`Scheduler.dfy`): every thread has a program counter
and a place in the runtime call it is making, and one step is one atomic operation or one lock
section. Runs are arbitrary interleavings of any number of workers, outside threads and tasks. Join
handles (`JoinHandles.dfy`) and timers with the wakers a reactor poll has collected
(`SleepTimers.dfy`) are layers on top; each of their steps is a scheduler step, a step on their own
state, or both. Progress (`Settling.dfy`, `Progress.dfy`, `Deadlines.dfy`) is proved in the timer
layer, where the firing loop has to run to its end and may have to wait for a waker cell;
`Shutdown.dfy` adds the end of the pool. The reactor (`ReactorRuns.dfy`) is a
transition system of its own, with the kernel's interest list as part of the state.

**Objects.** What the source changes in place is a class: `ReadyQueue`, `TimerWheel`, `Reactor`,
`Runtime`, `Channel`. Each method is proved equal to a function of the old state, and the theorems
are about those functions. The reactor machine takes its register and event steps from the same
functions as the class.

**Assumptions.**

- Atomics interleave in one order seen by all; memory orderings are not modelled.
- Task ids are fresh; a waker of a task is the task's id. Every call to `register` brings its own waker.
- In the pool a future is any sequence of calls (wakes, spawns, sleeps, polls of handles and of
  Sleeps) followed by Pending or Ready. A panic is a poll that ends without a result; the task is
  removed like one that is ready.
- In the single-threaded runtime a future is the finite list of what its polls do. It cannot spawn,
  because `block_on` holds the runtime by unique reference.
- The kernel follows epoll_ctl(2), epoll(7) and eventfd(2). It may refuse an ADD or a MOD for reasons
  of its own; a DEL of a listed descriptor succeeds.
- `compare_exchange_weak` may fail spuriously, `compare_exchange` may not. A Sleep is polled by one
  thread at a time, because its `poll` takes it by unique reference.

**Where the text and the code differ.** The documentation of the pool speaks of the driver blocking
until an event comes. The code never waits without a timeout (5 ms when there are no timers); the
model follows the code, but the progress theorem does not use the timeouts.

**Where a promise needs a condition.**

- A waker that survives an event stays reachable unless the kernel refuses the re-arm
  (`ReactorProofs.RefusedRearmStrands` is a run in which it does); `SurvivorArmedIff` is the exact
  condition for one event and `NoStrandedWaker` the statement about whole runs.
- A registration fails when another thread is between the two halves of a `deregister` of the same
  descriptor (`ReactorProofs.HalfDeregisteredRefuses` is such a run, `RegisterFailsIff` the exact
  condition); it is then rolled back completely.
- A wait that runs its full length reaches the next deadline exactly when that deadline is no more
  than 2^31 - 1 milliseconds away (`TimerWheels.FullWaitReachesDeadline`).

## Model

| member | source | states |
|---|---|---|
| Deadlines.DueSleeperIsPolled | src/multi_thread/timer.rs:184-264 | a due Sleep ends: from every reachable state before shutdown, and whatever the surroundings choose, the task of the last pending poll of a Sleep whose deadline has passed gets to its next poll, or to its end, with no wait but the driver's bounded one |
| Deadlines.DueGetsFired | src/multi_thread/executor.rs:253-274 | from every state that keeps the invariant, somebody becomes the driver or already is, drains the inbox and fires a due timer, and the firing loop is left |
| Deadlines.WaitsOrIsPolled | src/multi_thread/timer.rs:252-264 | along any such path the task that waits for a timer goes on waiting for it or is polled on the way |
| Progress.WokenTaskCanBePolled | src/multi_thread/executor.rs:238-348 | no stuck run: from every reachable state before shutdown, and whatever is chosen for the ends of polls, the collected wakers, the fetched events and the deadlines of sleeps under way, an unfinished task with a pending wake is taken to the start of its next poll, or to its end, by steps that need no timeout, no interrupted wait, no new call and no spurious failure |
| Progress.QueuedCanBePolled | src/multi_thread/executor.rs:238-292 | the same for every task in the ready queue, wherever it stands in it |
| Progress.ReachesHead | src/multi_thread/executor.rs:238-378 | every worker that is not parked and does not hold the queue mutex gets to dequeue the head, through the firing loops and the waker calls it has begun, taking nothing else out of the queue |
| Progress.CarriedIsQueued | src/multi_thread/executor.rs:116-133 | a task that a waker, a spawner or its own worker carries reaches the queue |
| Progress.NotifiedIsQueued | src/multi_thread/executor.rs:334-345 | a task notified during its poll is queued again when the poll ends pending, and finished when it ends ready |
| Progress.FiringEnds | src/multi_thread/timer.rs:203-226 | from every reachable state the firing loop, once begun, gets to its end: the due timers are popped, the spins on a cell in other hands and the wakers called included |
| Settling.Settle | src/multi_thread/timer.rs:49-112 | a thread finishes the call, the poll of a Sleep, the firing loop or the collected wakers it has begun, and meanwhile no wake is lost, nothing leaves the queue and no other thread gets hold of a task |
| Settling.FreeCell | src/multi_thread/timer.rs:49-112 | the owner of a WAKING cell gives it up in at most two steps of its own, and disturbs no other thread |
| SchedulerTheorems.DriverNeverMissesEnqueue | src/multi_thread/executor.rs:253-275 | from the driver's re-check until epoll_wait returns, a non-empty queue means the eventfd is readable or a pusher has yet to write it |
| SchedulerTheorems.TokenConservation | src/multi_thread/executor.rs:57-70 | counting the queue, the threads about to enqueue and the workers that just dequeued, a task has one scheduling token when it is SCHEDULED and none otherwise |
| SchedulerTheorems.ChecksNeverFail | src/multi_thread/executor.rs:295-345 | in every run the dedup never rejects, the lookup never misses, the CAS to RUNNING never fails, the blind store only overwrites NOTIFIED and the decrement never wraps |
| SchedulerTheorems.ExclusivePolling | src/multi_thread/task.rs:51-83 | at most one thread is inside a future; its task is in the map, not finished, and RUNNING or NOTIFIED |
| SchedulerTheorems.FinishedStaysFinished | src/multi_thread/executor.rs:309-333 | after Ready or a panic a task is never queued, carried to the queue or polled again, whoever keeps waking it |
| SchedulerTheorems.NoLostWake | src/multi_thread/executor.rs:178-208 | a wake that took effect leaves the task SCHEDULED or NOTIFIED at every later point until a poll of it begins |
| SchedulerTheorems.PendingWakeHasCarrier | src/multi_thread/executor.rs:334-345 | a pending wake of an unfinished task is in the queue or in some thread's hands |
| SchedulerTheorems.NeverAllParked | src/multi_thread/executor.rs:252-291 | the token is set exactly while one worker holds it, that worker is awake, and before shutdown some worker always is |
| SchedulerTheorems.SingleWorkerNeverParks | src/multi_thread/runtime.rs:50-72 | a pool of one worker never parks and is never on its way to park |
| SchedulerCalls.EnqueueReleases | src/multi_thread/executor.rs:116-125 | at the end of an enqueue, if a worker is parked exactly one parked worker is released and no other thread is touched; if none is, nothing happens |
| SchedulerCalls.ParksOnlyWhenEmpty | src/multi_thread/executor.rs:277-290 | a worker is between its look at the queue and its sleep, and falls asleep, only with the queue empty |
| SchedulerCalls.NotifyAllReleases | src/multi_thread/executor.rs:319-333 | when a task finishes, and at shutdown, nobody stays parked |
| SchedulerCalls.ProgramOrder | src/multi_thread/executor.rs:116-208 | in every run a thread's next step is the one the source has next: push, token, poke if there is a driver, notify; insert and count before the push; load and compare until a wake has its answer; register before the poke of a sleep |
| SchedulerCalls.EventfdChange | src/reactor.rs:314-319 | a poke makes the eventfd readable, a driver that saw it drains it, and nothing else takes from it |
| SchedulerCalls.ShutdownIsSeen | src/multi_thread/runtime.rs:158-169 | from the shutdown on, a worker that looks at the flag before a dequeue or before it sleeps exits |
| Shutdown.WorkersExit | src/multi_thread/runtime.rs:158-169 | from every reachable state after a shutdown, and whatever the surroundings choose, every worker gets to its exit with no wait but the bounded ones |
| SchedulerTheorems.LiveCount | src/multi_thread/executor.rs:128-133 | active_count is the size of the task map less the spawns and plus the removals under way, and never negative |
| SchedulerCount.UncountNeverUnderflows | src/multi_thread/executor.rs:319-333 | the counter is positive whenever a worker decrements it |
| SchedulerTheorems.RunInv | src/multi_thread/executor.rs:101-378 | ownership, driver and count invariants hold in every state of every run |
| SchedulerOwnership.KeepsOwnership | src/multi_thread/executor.rs:116-348 | every step keeps each task in exactly one place, and the place fixes its state, its map entry and whether it has finished |
| SchedulerDriver.KeepsDriver | src/multi_thread/executor.rs:238-292 | every step keeps the token, the queue mutex, the poke to the driver and a worker awake |
| SchedulerCount.KeepsCount | src/multi_thread/executor.rs:319-333 | every step keeps the count in agreement with the task map |
| JoinHandles.DeliveredAtMostOnce | src/multi_thread/task.rs:90-127 | over any run, polls after Ready included, a handle hands out at most one value, the future's own output, and until then the output is in the slot |
| JoinHandles.ReadyIsDelivered | src/multi_thread/task.rs:117-127 | a poll of the handle of a completed task leaves exactly the future's output delivered and the slot empty |
| JoinHandles.CompletionStores | src/multi_thread/task.rs:90-103 | a completion happens once per task, stores its value, and starts the wake of the waker it finds |
| JoinHandles.SpawnGivesHandle | src/multi_thread/runtime.rs:77-93 | spawning makes an empty slot for a new task |
| JoinHandles.PendingHandleWakes | src/multi_thread/task.rs:90-127 | after a pending poll of a handle, and until the next poll of it: before the task completes the slot holds the polling task's waker; afterwards that task is being woken, or SCHEDULED, NOTIFIED or finished, or a poll of it began after its wake took effect |
| JoinHandles.CompletionReachesAwaiter | src/multi_thread/task.rs:90-127 | the same for the recorded awaiter of a handle, and that it is no longer just being woken once the completing worker is out of the slot |
| JoinHandles.CompletionIsEnabled | src/multi_thread/task.rs:90-103 | a worker in a future can always enter the completion section: the slot is free and its waker belongs to a known task |
| JoinHandles.JoinRunInv | src/multi_thread/task.rs:90-127 | the slot, completion and awaiter invariants hold in every run |
| SleepTimerTheorems.PendingSleepWakes | src/multi_thread/timer.rs:252-264 | after a pending poll of a Sleep, and until the next poll of it: before the timer completes its cell holds the polling task's waker; afterwards that task is being woken by the driver, or SCHEDULED, NOTIFIED or finished, or a poll of it began after its wake took effect |
| SleepTimerTheorems.SleepNeverLosesWake | src/multi_thread/timer.rs:215-264 | the same for the recorded awaiter of a timer in any state of a run |
| SleepTimerTheorems.CellHasOneOwner | src/multi_thread/timer.rs:49-112 | the cell is WAKING exactly while some thread owns the waker inside, and it never has two owners |
| SleepTimerTheorems.HeapOnlyByDriver | src/multi_thread/timer.rs:203-226 | whoever drains the inbox into the heap, pops from it or finds nothing due holds the driver token, is the only thread that drives, and is alone in the firing loop |
| SleepTimerTheorems.FiresOnce | src/multi_thread/timer.rs:203-226 | a timer is popped at most once, and not before its deadline |
| SleepTimerTheorems.WheelHoldsUnfired | src/multi_thread/timer.rs:184-235 | the registered timers that have not fired are exactly those in the inbox or the heap, each in one of them |
| SleepTimerTheorems.NeverReadyEarly | src/multi_thread/timer.rs:203-264 | no timer is completed before the clock has reached its deadline |
| SleepTimerTheorems.SleepReadyIff | src/multi_thread/timer.rs:252-264 | a poll of a Sleep ends Ready if and only if the timer has completed, and then its deadline has passed |
| SleepTimerTheorems.RegisterIsHeld | src/multi_thread/timer.rs:184-194 | a registered timer has the deadline asked for, is not completed and waits in the inbox |
| SleepTimerTheorems.NewTimersReachDriver | src/multi_thread/runtime.rs:96-106 | from the inbox drain until epoll_wait returns, a timer in the inbox means the eventfd is readable or a `sleep` caller has yet to write it |
| SleepTimerProofs.TimerRunInv | src/multi_thread/timer.rs:49-264 | the cell, wheel and poke invariants hold in every run |
| TimerWheels.TimerWheel.Process | src/multi_thread/timer.rs:203-226 | empties the inbox, fires exactly the pending timers that are due, in deadline order and once each, keeps the rest and returns the gap to the earliest of them |
| TimerWheels.TimerWheel.Register | src/multi_thread/timer.rs:184-194 | adds one pending timer and leaves the heap alone |
| TimerWheels.TimerWheel.HasPending | src/multi_thread/timer.rs:233-235 | true exactly when some timer is registered and not fired |
| TimerWheels.TimeoutMs | src/reactor.rs:219-230 | -1 only without a timeout, 0 only for a zero timeout, never above the cap |
| TimerWheels.RoundsUp | src/reactor.rs:219-230 | rounding never shortens an uncapped wait and lengthens it by less than a millisecond |
| TimerWheels.FullWaitReachesDeadline | src/reactor.rs:219-230 | a wait that runs its full length reaches the deadline if and only if the deadline is within the cap |
| TimerWheels.DriverWaitReachesNext | src/multi_thread/executor.rs:361-378 | the driver's wait is never zero, and run to its end reaches the earliest timer if and only if that is within the cap |
| ReactorProofs.NoStrandedWaker | src/reactor.rs:158-304 | over every interleaving, a stored waker whose descriptor's last re-arm was not refused has its direction armed or an unhandled event for its descriptor |
| ReactorProofs.SurvivorArmedIff | src/reactor.rs:281-301 | a direction whose waker survives an event is armed afterwards if and only if the re-arm was accepted or it was armed already |
| ReactorProofs.RefusedRearmStrands | src/reactor.rs:290-300 | a run in which a refused re-arm leaves a stored waker neither armed nor with an event |
| ReactorProofs.KeysAgree | src/reactor.rs:158-212 | the interest list is the map plus the descriptors in the middle of a deregister, and the two do not overlap |
| ReactorProofs.OpsAreLegal | src/reactor.rs:185-191 | register picks the operation the kernel expects if and only if the descriptor is not in the middle of a deregister; re-arm and DEL always do |
| ReactorProofs.RegisterFailsIff | src/reactor.rs:158-204 | a registration fails if and only if the kernel refuses or a deregister is half done, and then nothing has changed |
| ReactorProofs.HalfDeregisteredRefuses | src/reactor.rs:207-212 | a run in which a registration fails without a refusal of the kernel's own, because another thread has removed the map entry and not yet the interest |
| ReactorProofs.WakerConservation | src/reactor.rs:245-308 | every accepted waker is in exactly one place: one slot, one poller's list, called once, replaced or dropped |
| ReactorBatches.BatchIsSteps | src/reactor.rs:242-304 | the loop over a fetched batch is the machine's event steps one after the other: same registrations, same interest list, same wakers in the same order |
| ReactorBatches.BatchTakesAll | src/reactor.rs:242-304 | the wakers of a batch are those its events report, event after event |
| ReactorBatches.BatchMeans | src/reactor.rs:245-301 | after a batch a waker is still stored if and only if no event reported its direction, and a reported one is among the wakers |
| ReactorBatches.HandledMeans | src/reactor.rs:262-284 | an event takes the wakers of exactly the directions it reports, both for an error or a hang-up |
| ReactorBatches.StoredUntil | src/reactor.rs:158-304 | a waker leaves its slot only by a new registration of the same direction, a deregister, or an event that reports it |
| ReactorBatches.CollectedIsCalled | src/reactor.rs:306-308 | a collected waker is called by the poller that collected it and never dropped |
| ReactorBatches.ReportedIsCollected | src/reactor.rs:262-284 | handling an event collects every waker of a direction it reports |
| ReactorBatches.RegisterArmsWanted | src/reactor.rs:176-191 | an accepted registration arms exactly the directions that have a waker and touches no other descriptor |
| ReactorBatches.CounterChange | src/reactor.rs:245-255 | handling the wake event drains the eventfd and nothing else takes from it |
| ReactorProofs.ReactorRunInv | src/reactor.rs:158-308 | the lock, agreement, arming and waker invariants hold in every run |
| Reactors.Reactor.Register | src/reactor.rs:158-204 | the waker is stored and the wanted mask armed, or everything is rolled back |
| Reactors.Reactor.Deregister | src/reactor.rs:207-212 | removes the entry and, only if there was one, the interest |
| Reactors.Reactor.HandleEvent | src/reactor.rs:245-301 | one event takes the wakers of its directions and re-arms what is left |
| Reactors.Reactor.CollectWakers | src/reactor.rs:242-304 | the whole batch, event by event, with the wakers in order |
| Reactors.Reactor.Wake | src/reactor.rs:141-146 | afterwards the wake event is deliverable, so the next epoll_wait returns at once; the counter grows by one unless it is full, and nothing else changes |
| ReactorProofs.PokeIsSeen | src/reactor.rs:119-146 | after a wake the wake event stays deliverable at every later point until a poller drains the eventfd |
| RoundProgress.BlockOnReturns | src/runtime.rs:113-195 | block_on returns the root future's output once the root has been in the ready queue at the start of as many rounds as its future needs polls, whatever else goes on |
| RoundProgress.ReadyAtOnce | src/runtime.rs:130-139 | a future that is ready at once is returned by the first round |
| RoundProgress.TickPollsReady | src/executor.rs:162-189 | a tick uses up a poll of every task that was ready, live and not done with its polls |
| RoundProgress.PollUsesOne | src/executor.rs:170-186 | a poll uses up one poll of its task: pending leaves the rest, ready removes the task and leaves its value in the slot; no other task is touched |
| RoundProgress.PollActs | src/executor.rs:170-186 | everything the future does in its poll is done: wakes queue, timers get into the heap, pending polls leave the task's waker |
| RoundProgress.RoundWaits | src/runtime.rs:153-184 | a round that waits does so for the gap to the earliest timer, or 5 ms without timers, and afterwards whoever was woken is queued and nothing due is left in the heap; a round that skips the wait has a ready task |
| RoundProgress.HandleGivesOnce | src/join_handle.rs:31-42 | a stored value is given by the next poll of the handle and by no later one; a pending poll leaves its waker |
| RoundProgress.SpawnQueues | src/runtime.rs:52-67 | a spawned task is live with its whole future, queued behind the others, with an empty slot |
| BlockOn.BlockOnReturnsOutput | src/runtime.rs:113-195 | whatever the tasks and the surroundings, a block_on that ends does so in step 2 with the root future's own output; the bail-out, the break and the panic are never reached |
| BlockOn.RoundKeepsRoot | src/runtime.rs:130-185 | a round returns, with the output, if and only if its ticks have stored the root's result; otherwise it goes on with the root live, its result absent and its flag waker in place |
| RoundWakes.BlocksOnlyWhenIdle | src/runtime.rs:153-179 | the loop waits in the reactor only with an empty queue, no woken live task, and the root's result absent |
| RoundWakes.TickKeepsAhead | src/executor.rs:162-189 | after any number of polls of a tick, a live task woken since its last poll is queued again or still ahead in this tick |
| RoundWakes.RoundKeepsAhead | src/executor.rs:48-58 | between rounds every woken live task is in the queue, which has no duplicates and agrees with its set |
| RoundWakes.RoundKeepsWaits | src/timer.rs:123-131 | between rounds, whoever waits for a Sleep or a handle is registered with it as long as it is not over, and has been woken after that |
| RoundTimers.ProgramInv | src/runtime.rs:33-196 | in every world that a sequence of spawns, sleeps, wakes and block_ons can reach, woken live tasks are queued, waiters are registered or woken, and the uncompleted timers are those in the heap |
| RoundTimers.SleeperWillBeWoken | src/timer.rs:82-131 | in every such world, for the task of the last pending poll of a Sleep: until the timer completes it is in the heap and holds the task's waker; after that the task, if live, is in the ready queue until a poll answers |
| RoundTimers.JoinerWillBeWoken | src/join_handle.rs:31-42 | the same for a join handle: while its task is live the slot is empty and holds the waker; once the task is gone the awaiter, if live, is in the ready queue until a poll answers |
| RoundTimers.ProcessTakesDue | src/timer.rs:82-97 | `process` leaves exactly the entries that are not due and returns the gap to the earliest of them |
| RoundProgress.ProcessFiresInOrder | src/timer.rs:82-97 | `process` fires exactly the due timers, each once and earliest deadline first |
| RoundTimers.ProcessCompletesDue | src/timer.rs:82-97 | `process` completes a timer if and only if it was completed before or has an entry that is due |
| RoundTimers.RoundKeepsHeap | src/timer.rs:66-97 | in every round the uncompleted timers are exactly those in the heap, one entry each |
| RoundTimers.FullWaitFiresATimer | src/runtime.rs:153-184 | when a wait for the next timer runs its full uncapped length, the `process` after it fires at least one timer |
| SingleThread.TickShrinks | src/executor.rs:162-189 | a tick uses up polls or empties the queue |
| Runtimes.Runtime.BlockOn | src/runtime.rs:113-195 | the loop, round by round, and the output it returns |
| Runtimes.Runtime.RunRound | src/runtime.rs:130-185 | one round: ticks, flag check, bail-out, timers, wait |
| Runtimes.Runtime.Sleep | src/runtime.rs:153-194 | steps 4 to 7 and the code after the loop |
| Runtimes.Runtime.ProcessTimers | src/timer.rs:82-97 | the firing loop, earliest entry first |
| Runtimes.Runtime.TickAll | src/runtime.rs:132-132 | ticks until a tick finds nothing, and terminates |
| Runtimes.Runtime.Tick | src/executor.rs:162-189 | drains the queue and polls what was in it, in order |
| Runtimes.Runtime.PollTask | src/executor.rs:162-189 | polls one task if it is still there and removes it when it is ready |
| Runtimes.Runtime.Finish | src/task.rs:70-84 | the result goes to the slot and the waker in it is called |
| Runtimes.Runtime.PollHandle | src/join_handle.rs:31-42 | takes the result or replaces the waker |
| Runtimes.Runtime.Spawn | src/runtime.rs:52-67 | a new task with an empty slot, queued once |
| Runtimes.Runtime.Wake | src/runtime.rs:202-234 | a task waker queues its task, the flag waker raises the flag |
| ReadyQueues.ReadyQueue.Enqueue | src/multi_thread/executor.rs:57-61 | appends unless present; a queue without duplicates that agrees with its set stays one |
| ReadyQueues.ReadyQueue.Dequeue | src/multi_thread/executor.rs:63-70 | takes the head out of the queue and the set, so that it can be queued again |
| ReadyQueues.ReadyQueue.Drain | src/executor.rs:55-58 | takes everything, in order, and clears the set |
| Channels.ChannelHistory | src/channel.rs:40-127 | in every run the accepted values are the received ones followed by the queue, sender_count is the number of live senders, and a stored waker means an empty queue and a live sender |
| Channels.SendAnswered | src/channel.rs:53-63 | a send is refused if and only if the receiver was dropped before, and then gives the value back; otherwise the value is the last one accepted |
| Channels.ReceiveAnswered | src/channel.rs:93-127 | a receive gives the next accepted value if and only if there is one; otherwise `recv` says None if and only if all senders are gone |
| Channels.SendersChange | src/channel.rs:40-77 | the live senders are the first one and the clones, less those dropped |
| Channels.ReceivedInOrder | src/channel.rs:93-127 | the value received next is the first accepted one not yet received |
| Channels.ClosedMeansDrained | src/channel.rs:112-127 | `recv` says None only when all senders are gone and every accepted value was received |
| Channels.PendingIsWoken | src/channel.rs:53-77 | after a pending `recv` the waker is still stored, with nothing to receive and a live sender, or it has been called since |
| Channels.Channel.SendValue | src/channel.rs:53-63 | queues the value and wakes the receiver, or gives the value back when the receiver is gone |
| Channels.Channel.PollReceive | src/channel.rs:112-127 | a value, or the end, or pending with the waker stored |
| Channels.Channel.Disconnect | src/channel.rs:66-77 | counts down and wakes the receiver when the last sender goes |
| Channels.Channel.CloneSender | src/channel.rs:40-47 | counts up for one more live sender |
| Channels.Channel.TryReceive | src/channel.rs:93-95 | the head of the queue, if any |
| Channels.Channel.CloseReceiver | src/channel.rs:98-102 | later sends are refused |

## Left out

- WokenTaskCanBePolled: says that a continuation exists from every reachable state, not that every fair run takes it; a poll of a future that is under way is taken to end, as chosen. The lock on the reactor's map is not part of this machine.
- DueSleeperIsPolled: existence of a continuation in the same sense, and with polls that begin on the way ending at once.
- NoStrandedWaker: one direction over whole runs, because a descriptor whose re-arm was refused may still be armed by an earlier registration or have an event in another poller; SurvivorArmedIff is exact for one event.
- BlockOnReturnsOutput: is about futures with finitely many polls and covers as many rounds as the surroundings are given for; a root future that is never ready keeps the loop running, and BlockOnReturns says when it ends.
- FullWaitFiresATimer: for deadlines within the cap of the timeout; beyond it the wait ends early and the loop goes round again.
- CloneSender: senders are told apart by ids the source does not have.
- Memory orderings: every atomic operation is sequentially consistent here.
- WorkersExit: existence of a continuation, as for WokenTaskCanBePolled; nothing is said about how soon the workers exit. A notify that comes just before a worker parks is made up for by the 100 ms timeout, which the statement allows.
- The condvar by which `MultiThreadRuntime::block_on` gets its result from the pool: one mutex-guarded slot and one wait loop on it; the task that fills the slot is an ordinary task of the pool.
- Mutex poisoning and unwinding: a panic is a way for a poll to end; no result is promised for it.
- The socket types of `src/net.rs` and `src/multi_thread/net.rs`: thin wrappers over the reactor and system calls.
- RawWaker tables, `Box`, `Rc` and `Arc` counts: memory management behind the wakers.
- Raw system calls: an interest list with armed masks and a counter stand for epoll and the eventfd. The fetched events of an epoll_wait are any armed ones, up to 64.
- The order of equal deadlines in a `BinaryHeap`: any of them may come first in the pool; in the single-threaded model an arbitrary number on each entry decides.
- The `has_pending` read in `drive_io`: not a step of the machine, since it only picks a timeout.
- Wall-clock promptness and fairness of `while tick() {}` towards timers and I/O: the code does not promise either.
