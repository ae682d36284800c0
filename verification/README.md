# Veloco in Dafny

Veloco is a coroutine runtime in C: a G/P/M work-stealing scheduler, an allocator with
per-processor caches, asynchronous I/O over io_uring and epoll, timers, synchronization
objects for tasks, and an HTTP/1.1 parser.  This project models these components and
proves what they promise, for every run and every input.

Concurrent parts are step machines.  One step is one critical section of a mutex, or one
atomic access; steps of different threads interleave in any order; what the system, the
kernel or a task's body decides is a parameter of the step.  A run is a sequence of steps,
and the main results are about the state after any run.  Fields marked *history* record
what happened and are read by no step.  Parts that one thread works on in place are classes
and loops over arrays, proved against the functions the theorems are about.

| files | component |
|---|---|
| `Common.dfy`, `Paths.dfy` | shared definitions; runs of a step machine |
| `RunQueue.dfy` | the lock-free deque |
| `GlobalQueue.dfy`, `Scheduler*.dfy` | the global queue, the scheduler and the life of a task |
| `Sockets.dfy`, `Uring*.dfy`, `Epoll*.dfy` | descriptors, and the two I/O backends |
| `SizeClass.dfy`, `SpanLayout.dfy`, `Memory*.dfy`, `Allocator.dfy` | the allocator |
| `Channel.dfy`, `SyncObjects.dfy` | channel, mutex, semaphore, wait group |
| `Timer*.dfy` | timers |
| `Http*.dfy` | the HTTP parser |

`SchedulerInvariant.dfy` and `UringInvariant.dfy` hold the two large invariants; the files
beside them prove, action by action, that they are kept.

## Findings

Six promises do not hold of the code as it stands.  Each has a run or an input that shows
it, and a theorem that says exactly when the promise does hold.

- **Lost spawn, false deadlock.**  A worker that saw a run on, and is still scanning when
  that run is over, takes a task the owner spawns then and drops it (`src/runtime/worker.c`
  lines 136-139).  The task stays runnable and is nowhere; the next run reports a deadlock.
  Witness: `SchedulerRuns.FalseVerdict`.  Exactly when: `SchedulerLoss.SpawnIsSafeIff`.  What a
  program can do about it: `SchedulerLoss.ProgramIsSafe`.  Then nothing is lost and the
  verdict is sound: `SchedulerStops.SafeRunsLoseNothing`, `VerdictSoundInSafeRuns`.
- **Joiners of a cancelled task.**  A task that gets no fiber, or comes back without having
  parked, is cancelled without waking those joined on it (`src/runtime/worker.c` lines
  188-196 and 214-223).  Witness: `SchedulerRuns.JoinerLeftBehind`.  Exactly when:
  `SchedulerJoins.JoinerOutcome`, `RootStrandsIff`, `OnlyTheRootCancels`.
- **Stranded timer.**  `vl_timer_arm` clears the handle after it wakes, without the lock
  (`src/time/timer.c` lines 92-95).  A second task that has armed the handle by then is
  never woken.  Witness: `Timers.StrandingRun`.  Exactly when: `Timers.ArmIsSafeIff`.
- **Failed wake-up write.**  `vl_io_worker_submit` reports an error while the operation
  stays queued, so the claim is given back early (`src/net/io_worker.c` lines 518-520).
  Witness: `UringTheorems.TwoInFlight`.  Exactly when: `UringTheorems.ClaimsNeedTheWrite`.
- **Leaked operation.**  Tearing a handle down frees a queued cancel command but not its
  operation when that was polled already (`src/net/io_worker.c` lines 391-394).  Witness:
  `UringTeardown.LeakRun`.  Exactly when: `UringTeardown.LeakIff`.
- **Oversized input.**  Above the parser's capacity the outcome can depend on how the bytes
  were split (`src/http/http_parser.c` lines 281-287).  Witness: `HttpMessage.SplitMatters`.
  For exactly which bytes: `HttpMessage.SplitMattersIff`.

`vl_refill_cache` may report that memory is out after it has moved objects into the cache
(`src/memory/valloc.c` lines 147-163); `Allocator.Heap.RefillCache` states exactly when.

## Model

| member | source | states |
|---|---|---|
| `RunQueue.PosIsModulo` | src/runtime/run_queue.c:39-57 | the slot of an index is the index modulo the capacity, however often the ring wraps |
| `RunQueue.OwnerQueueStep` | src/runtime/run_queue.c:39-95 | every atomic access of the owner is silent on the abstract queue or is a push at its back or a pop from its back |
| `RunQueue.ThiefQueueStep` | src/runtime/run_queue.c:97-123 | every atomic access of a thief is silent or takes the front item; a compare-and-swap that succeeds returns the item that is at the front then |
| `RunQueue.OwnerKeepsInv` | src/runtime/run_queue.c:39-95 | the owner keeps every thief's copy of a slot valid for as long as its exchange could still succeed |
| `RunQueue.ThiefKeepsInv` | src/runtime/run_queue.c:97-123 | a thief's step keeps what the owner and the other thieves rely on |
| `RunQueue.StepSimulates` | src/runtime/run_queue.c:39-123 | one access of any thread is one step of the sequential queue |
| `RunQueue.Linearizable` | src/runtime/run_queue.c:39-123 | for every interleaving of one owner and any number of thieves, what the callers observe is a run of the sequential queue and the live slots are its contents |
| `RunQueue.ExactlyOnce` | src/runtime/run_queue.c:39-123 | in every interleaving the items pushed are, as a multiset, the items returned and those still queued; an item pushed once is returned at most once |
| `RunQueue.FailedStealWasOvertaken` | src/runtime/run_queue.c:97-123 | a steal fails only because another thread took the item; nothing is lost |
| `RunQueue.SoloPush` | src/runtime/run_queue.c:39-57 | an undisturbed push is refused exactly when the queue is full |
| `RunQueue.SoloPop` | src/runtime/run_queue.c:59-95 | an undisturbed pop returns the newest item |
| `RunQueue.SoloSteal` | src/runtime/run_queue.c:97-123 | an undisturbed steal returns the oldest item, or nothing exactly when the queue is empty |
| `RunQueue.Deque.constructor` | src/runtime/run_queue.c:12-28 | a fresh ring is empty |
| `RunQueue.Deque.OwnerPush` | src/runtime/run_queue.c:39-57 | pushes at the back exactly when there is room, and leaves a full ring as it is |
| `RunQueue.Deque.OwnerPop` | src/runtime/run_queue.c:59-95 | undoes the last push; nothing exactly when empty |
| `RunQueue.Deque.Steal` | src/runtime/run_queue.c:97-123 | takes the oldest item; nothing exactly when empty |
| `RunQueue.Deque.StealBatch` | src/runtime/run_queue.c:125-142 | fills the array with the oldest items, in order, as many as there are and fit, and writes nothing else |
| `GlobalQueue.TakeConserves` | src/runtime/worker.c:20-64 | a scan neither loses nor duplicates a task |
| `GlobalQueue.TakeChoosesFirst` | src/runtime/worker.c:20-64 | the task taken is the first eligible one, and there is one exactly when some queued task is eligible; the extras have no fiber and with the task are at most eight |
| `GlobalQueue.TakePullsExtras` | src/runtime/worker.c:43-61 | the extras are exactly the first tasks without a fiber behind the one taken, going round, as many as make eight with it, as there are and as the deque has room for |
| `GlobalQueue.TakeNothingKeepsOrder` | src/runtime/worker.c:20-64 | a scan that finds nothing eligible leaves the queue in its order |
| `GlobalQueue.TakeAloneIsFifo` | src/runtime/worker.c:20-64 | with one worker the scan is a pop from the front |
| `GlobalQueue.Scan.TakeFirst` | src/runtime/worker.c:29-42 | the rotating loop stops at the first eligible task with the queue rotated past it |
| `GlobalQueue.Scan.PullExtras` | src/runtime/worker.c:43-61 | the second loop moves fiberless tasks to the deque until the quota or the room ends |
| `GlobalQueue.Scan.TakeGlobal` | src/runtime/worker.c:20-64 | both loops together compute the scan the four laws above are about, and the two statistics |
| `SchedulerTheorems.InitialInv` | src/runtime/scheduler.c:261-366 | a fresh runtime satisfies the invariant |
| `SchedulerTheorems.StepKeeps` | src/runtime/worker.c:20-338 | every action of every thread keeps the invariant: each task at one runnable place and in one wait structure at most, flags and counters exact |
| `SchedulerTheorems.RunKeeps` | src/runtime/worker.c:20-338 | so does every run, of any length and any interleaving |
| `SchedulerSteps.PopLocalKeeps` | src/runtime/worker.c:104-114 | taking from one's own deque moves one task from the deque to the hand |
| `SchedulerSteps.TakeGlobalKeeps` | src/runtime/worker.c:20-64 | the global scan keeps the invariant |
| `SchedulerSteals.StealOneKeeps` | src/runtime/worker.c:66-102 | one stolen item moves from the victim's deque to the thief's batch |
| `SchedulerSteals.StealDoneKeeps` | src/runtime/worker.c:66-102 | the batch is shared out to the hand, the deque and, when the deque is full, the global queue |
| `SchedulerWaits.WakeKeeps` | src/runtime/scheduler.c:126-145 | a wake requeues the task, or leaves a pending wake when the task still has its thread |
| `SchedulerWaits.WakeJoinersKeeps` | src/runtime/task.c:154-173 | waking all joiners one by one keeps the invariant |
| `SchedulerWaits.SyncWakeKeeps` | src/sync/sync_internal.h:27-41 | waking the head of a wait queue keeps the invariant |
| `SchedulerWaits.TimerFireKeeps` | src/time/timer.c:161-186 | so does an expiring timer |
| `SchedulerWaits.IoCompleteKeeps` | src/runtime/task.c:218-243 | so does an I/O completion; the guard on the waiting count never triggers |
| `SchedulerExecution.SpawnKeeps` | src/runtime/task.c:24-62 | a spawn adds a runnable task to the global queue, or nothing when the caller may not spawn |
| `SchedulerExecution.BeginExecuteKeeps` | src/runtime/worker.c:125-166 | starting a task, dropping it because the run is off, and cancelling it under shutdown keep the invariant |
| `SchedulerExecution.ResumeKeeps` | src/runtime/worker.c:167-181 | creating and resuming the fiber, or failing to |
| `SchedulerExecution.YieldKeeps` | src/runtime/task.c:64-85 | a yield |
| `SchedulerExecution.JoinKeeps` | src/runtime/task.c:94-144 | a join puts the caller at the end of the list of a task that has not ended |
| `SchedulerExecution.SyncParkKeeps` | src/sync/sync_internal.h:58-72 | parking in a wait queue |
| `SchedulerExecution.SleepKeeps` | src/time/timer.c:49-97 | sleeping in a timer heap |
| `SchedulerExecution.IoParkKeeps` | src/runtime/task.c:193-216 | parking for I/O |
| `SchedulerExecution.RootKeeps` | src/runtime/worker.c:183-236 | all outcomes at the root: failed, done, requeued, still parked, abandoned |
| `SchedulerExecution.CompleteIs` | src/runtime/task.c:154-173 | counting the finished task before its joiners wake makes no difference |
| `SchedulerExecution.IdleEnterKeeps` | src/runtime/worker.c:254-287 | going idle and declaring a deadlock |
| `SchedulerExecution.CancelListKeeps` | src/runtime/scheduler.c:147-170 | cancelling every task keeps the counters exact |
| `SchedulerTheorems.AtMostOnePlace` | src/runtime/worker.c:20-236 | in every reachable state a task occurs at most once over all queues, deques, batches and hands |
| `SchedulerTheorems.FlagsAreExact` | src/runtime/scheduler.c:83-124 | queued is set exactly while the task sits in a queue or a thief's batch, executing exactly while one worker, and only one, runs it |
| `SchedulerTheorems.TerminalIsNowhere` | src/runtime/scheduler.c:83-145 | an ended task is in no queue, no hand and no wait structure, until a shutdown cancels tasks where they are |
| `SchedulerTheorems.PendingWakeRequeues` | src/runtime/worker.c:203-213 | a wake that came while the task had its thread requeues it at the root |
| `SchedulerTheorems.FiberAffinity` | src/runtime/worker.c:30-60 | a task with a fiber is in no deque and no thief's hands, and only the processor that created the fiber ever has it to run |
| `SchedulerTheorems.CountersAgree` | src/runtime/task.c:46-59 | every counter is the size of the set it summarises; spawned = live + completed + cancelled; the idle count never exceeds the idle workers |
| `SchedulerJoins.TerminalIsFinal` | src/runtime/task.c:15-22 | an ended task never changes state again, and nobody joins or leaves its join list |
| `SchedulerJoins.DoneHasNoJoiners` | src/runtime/task.c:154-173 | in every reachable state nobody is left joined on a task that is done |
| `SchedulerJoins.ReturnWakesJoiners` | src/runtime/worker.c:197-202 | when a fiber has returned, the root empties the join list and every joiner is queued or has its wake pending |
| `SchedulerJoins.NoLostWakeup` | src/runtime/scheduler.c:126-145 | a live task that no worker runs is at one runnable place or in one wait structure, never both, never neither, unless a stopped run let go of it; a parked task with a thread is registered or has its wake pending; no joiner is left on a task that is done |
| `SchedulerJoins.JoinerOutcome` | src/runtime/worker.c:188-224 | once the joined task has ended, the joiner is stuck there in every continuation if and only if that task was cancelled |
| `SchedulerJoins.RootStrandsIff` | src/runtime/worker.c:188-224 | the branch the root takes decides it: a joiner is stranded if and only if the root abandons the task (no fiber, or back without having parked) |
| `SchedulerJoins.OnlyTheRootCancels` | src/runtime/worker.c:188-224 | before a shutdown nothing else cancels a task |
| `SchedulerJoins.StrandedForever` | src/runtime/task.c:94-144 | tasks joined on cancelled tasks, or on each other in a circle, never move again, short of a shutdown |
| `SchedulerStops.VerdictSound` | src/runtime/worker.c:254-287 | when a run that has lost nothing is stopped as deadlocked, every live task waits on a join list or in a wait queue: none is runnable, running, sleeping, waiting for I/O or in transit |
| `SchedulerStops.SafeRunsLoseNothing` | src/runtime/worker.c:125-140 | a run whose spawns are all safe loses no task |
| `SchedulerStops.VerdictSoundInSafeRuns` | src/runtime/worker.c:254-311 | in such a run the deadlock verdict is sound, whatever the saturating and reset idle count does |
| `SchedulerStatus.StatusSaysWhy` | src/runtime/worker.c:116-287 | in every reachable state before a shutdown: an action that turns the run off sets the status deadlocked if and only if tasks are left |
| `SchedulerStatus.RunReturnsWhy` | src/runtime/scheduler.c:388-405 | that status stays until the next run, so the call that ran the scheduler reports it |
| `SchedulerStatus.RunningHasWork` | src/runtime/worker.c:225-227 | in every reachable state before a shutdown a run that is on has a live task: it stops with its last one |
| `SchedulerStatus.LastIdleStops` | src/runtime/worker.c:254-287 | in every reachable state: when the others are counted idle and every live task waits on a join list or a wait queue, the worker going idle declares the deadlock |
| `SchedulerStatus.VerdictIff` | src/runtime/worker.c:254-287 | in safe runs a worker going idle declares a deadlock if and only if it is the last one counted and every live task waits on a join list or a wait queue |
| `SchedulerStatus.ShutdownCancels` | src/runtime/scheduler.c:147-170 | cancelling at shutdown ends exactly the tasks that have not ended and that no worker runs |
| `SchedulerShutdown.NothingRunsOutside` | src/runtime/scheduler.c:388-404 | in every reachable state: while the owner is outside the loop no run is on, and when it comes to cancel no worker executes a task |
| `SchedulerShutdown.ShutdownLeavesNothing` | src/runtime/scheduler.c:395-404 | so after it every task has ended, the live count is zero, and spawned = completed + cancelled |
| `SchedulerQueues.GlobalGrowsAtEnd` | src/runtime/scheduler.c:92-124 | only a scan takes tasks from the global queue; every other action adds at its end or leaves it |
| `SchedulerQueues.RequeueGoesGlobal` | src/runtime/scheduler.c:104-124 | a task that comes back to the root to run again goes to the end of the global queue, never to a deque |
| `SchedulerQueues.DequesAreQueues` | src/runtime/worker.c:66-114 | whatever the action: a deque's owner adds at the back and takes from the back, others take from the front, and nobody else touches it |
| `SchedulerQueues.StealShares` | src/runtime/worker.c:66-102 | the thief keeps the oldest task it took; the others follow in order to its deque or, refused there, to the global queue |
| `SchedulerQueues.OldestIsWoken` | src/sync/sync_internal.h:27-41 | a wait queue is served from its front, and no other task changes |
| `SchedulerQueues.JoinersQueueInOrder` | src/runtime/task.c:154-173 | joiners of a task that is done are queued in the order in which they joined |
| `SchedulerLoss.UnsafeSpawnLoses` | src/runtime/worker.c:125-140 | every spawn while a worker is still scanning after the run stopped can lose its task |
| `SchedulerLoss.SpawnIsSafeIff` | src/runtime/worker.c:125-140 | a spawn can lose its task if and only if a worker is between its look at the running flag and the end of its scan of a run that is over |
| `SchedulerLoss.OneWorkerIsSafe` | src/runtime/worker.c:315-338 | with one worker every spawn is safe |
| `SchedulerLoss.ProgramIsSafe` | src/runtime/task.c:24-62 | a program with one worker, or whose owner spawns only before its first run (task bodies may always spawn), loses no task in any run |
| `SchedulerRuns.FalseVerdict` | src/runtime/worker.c:254-287 | a run of two workers that ends in a false deadlock verdict |
| `SchedulerRuns.JoinerLeftBehind` | src/runtime/worker.c:188-196 | a run in which a task joins another that gets no fiber: the joiner waits for ever and the run stops as deadlocked |
| `SchedulerOrder.DispatchTakesHead` | src/runtime/worker.c:20-64 | a lone worker takes the head of the queue |
| `SchedulerOrder.OneWorkerIsFifo` | src/runtime/scheduler.c:115-118 | over any run of one worker the queue at the start is a prefix of the tasks handed out followed by the queue at the end: a task with k ahead of it is the one after k dispatches |
| `Sockets.ClosedIsStaleForever` | src/net/socket.c:67-212 | once a descriptor is closed, requests made for it are stale after every later run of track, claim, release and close, also when the generations have run out |
| `Sockets.OpenIsFresh` | src/net/socket.c:167-184 | while it is not closed they stay fresh |
| `Sockets.OneClaimPerDescriptor` | src/net/socket.c:129-165 | at most one claim per descriptor is outstanding in every run |
| `Sockets.SlotList.Find` | src/net/socket.c:26-36 | finds the first slot of the descriptor, exactly if it has one |
| `Sockets.SlotList.TrackDescriptor` | src/net/socket.c:67-97 | tracking on the linked list of slots computes the registry the laws above are about |
| `Sockets.SlotList.ClaimDescriptor` | src/net/socket.c:129-150 | likewise claiming |
| `Sockets.SlotList.ReleaseDescriptor` | src/net/socket.c:152-165 | likewise releasing |
| `Sockets.SlotList.IsStale` | src/net/socket.c:167-184 | likewise the stale test |
| `Sockets.SlotList.CloseDescriptor` | src/net/socket.c:186-212 | likewise closing |
| `UringTheorems.StepKeeps` | src/net/io_worker.c:215-309 | every step of the owner, the worker, the kernel and other threads keeps the invariant |
| `UringTheorems.MemoryIsSafe` | src/net/io_worker.c:215-309 | in every run freed memory is never used and nothing is freed twice |
| `UringTheorems.ExactlyOneCompletion` | src/net/io_worker.c:215-309 | an accepted operation is at every moment in at most one of: queued, with the kernel, in the worker's hand, published, being delivered, delivered; in exactly one until the worker fails or ends; whatever was delivered was delivered once |
| `UringAnswers.DeliveredFaithfully` | src/net/backend.c:168-205 | in every run what is delivered is the kernel's own answer to that very operation, with an accepted connection that cannot be tracked reported as one descriptor too many; or the stale error, and then the descriptor was closed |
| `UringAnswers.PublishedFaithfully` | src/net/io_worker.c:215-261 | so is what is published and not yet polled |
| `UringAnswers.AnsweredOnce` | src/net/io_worker.c:215-261 | in every run the answer recorded for an operation is never replaced |
| `UringCalls.CancelHits` | src/net/io_worker.c:523-547 | in every reachable state a cancel is sent for the one active operation of that request that has none under way, and nothing else changes; without one the call does nothing |
| `UringCalls.CancelsAreAsked` | src/net/io_worker.c:523-547 | in every run a cancel command still to be carried out was asked for by a call for that operation's own request |
| `UringCalls.SubmitAccepted` | src/net/io_worker.c:488-520 | a submission is accepted exactly when there is memory, the worker has not failed and no operation of the request is active |
| `UringCalls.PolledInOrder` | src/net/io_worker.c:562-618 | completions are polled and delivered in the order in which they were published |
| `UringCalls.CommandsInTurn` | src/net/io_worker.c:264-309 | commands are carried out in the order in which they were queued |
| `UringCalls.TakeTracks` | src/net/io_worker.c:215-226 | an accepted connection is tracked, one generation on, or reported as one descriptor too many, exactly when it cannot be |
| `UringTheorems.StaleIffClosed` | src/net/backend.c:191-205 | at delivery the stale error is used if and only if the descriptor was closed since the claim |
| `UringTheorems.StepClaims` | src/net/uring_backend.c:55-87 | as long as wake-up writes succeed every step keeps the claims |
| `UringTheorems.ClaimsAreExact` | src/net/io_worker.c:215-261 | in such runs each claim is given back exactly once, by its own operation, and a descriptor has at most one unreleased operation over all handles |
| `UringTheorems.AfterTeardown` | src/net/io_worker.c:386-414 | what is left when the handle is gone: only operations polled with a cancel command undone, only after the worker failed, and no claim |
| `UringTheorems.FailedWriteReleasesEarly` | src/net/io_worker.c:518-520 | a failed wake-up write gives the claim back while the operation is in flight |
| `UringTheorems.ClaimsNeedTheWrite` | src/net/io_worker.c:489-521 | the claims survive an enqueue if and only if it is not the accepted enqueue whose write fails |
| `UringTheorems.TwoInFlight` | src/net/io_worker.c:518-520 | a run with two operations in flight on one descriptor |
| `UringTeardown.LeakIff` | src/net/io_worker.c:386-414 | when teardown starts it is decided what leaks: an operation is never freed if and only if its caller had polled it while the command to cancel it was still queued |
| `UringTeardown.LeakRun` | src/net/io_worker.c:386-414 | a run in which an operation is never freed |
| `UringSolo.SoloOperation` | src/net/io_worker.c:215-309 | an undisturbed operation of any kind goes through every stage, is delivered with the kernel's result, freed, and its claim given back; an accepted connection that is delivered is tracked |
| `Epoll.StepAccounts` | src/net/epoll_backend.c:151-425 | every step accounts for every submission |
| `Epoll.SubmissionsAccounted` | src/net/backend.c:130-194 | in every run submissions = completions + waiters + queued completions + the one being delivered, each submission in exactly one of them, once |
| `Epoll.WaitersHaveClaims` | src/net/epoll_backend.c:151-203 | each waiter has the claim on its descriptor, no two share one, and a claim of this handle belongs to a waiter |
| `EpollStale.StaleIffClosed` | src/net/backend.c:191-205 | in every run a submission that waits, is queued or is about to be delivered is stale if and only if its descriptor was closed since it was claimed |
| `EpollStale.DeliveredFaithfully` | src/net/backend.c:191-205 | in every run the stale error is delivered for those whose descriptor was closed before; everyone else gets what their own system call answered, or that they were cancelled |
| `EpollStale.ClosedEndsStale` | src/net/epoll_backend.c:266-376 | a request whose descriptor is closed while it waits, while its completion is queued or just before it is delivered can only be delivered as stale, however the run goes on |
| `EpollCalls.SubmitAccepted` | src/net/epoll_backend.c:151-203 | exactly which submissions are accepted; a refused one leaves no trace, not even its claim |
| `EpollCalls.DeliveredForCause` | src/net/epoll_backend.c:205-376 | in every run each delivery belongs to one submission and one event that ended it: the caller's cancel, a poll that found the descriptor closed, or the system call's answer, whose result it carries |
| `EpollCalls.AcceptTracks` | src/net/epoll_backend.c:309-319 | a poll that takes an accepted connection tracks it, one generation on, or answers one descriptor too many, exactly when it cannot be tracked |
| `EpollCalls.AcceptedIsOpen` | src/net/epoll_backend.c:309-319 | in every run a descriptor delivered to the caller of an accept is still open in the generation it was accepted in, unless it was closed since |
| `EpollCalls.DeliveredInOrder` | src/net/epoll_backend.c:60-95 | completions are delivered in the order in which they were made |
| `SizeClass.ClassesAscend` | src/memory/size_class.c:3-9 | the class table is sorted |
| `SizeClass.IndexOf` | src/memory/size_class.c:11-26 | binary search finds the smallest class that is large enough, for every size |
| `MemoryInvariant.TakeCentralKeeps` | src/memory/span.c:100-112 | taking from a span keeps every object in one place and every count exact |
| `MemoryInvariant.ToCentralKeeps` | src/memory/span.c:114-125 | so does giving back to a span; the decrement of the cached count never saturates |
| `MemoryInvariant.ReclaimKeeps` | src/memory/span.c:151-166 | and so does unmapping an empty span |
| `Allocator.Heap.constructor` | src/memory/valloc.c:61-80 | an empty heap satisfies the invariant |
| `Allocator.ThreadObjects` | src/memory/span.c:60-95 | the free list of a new span holds each of its objects once |
| `Allocator.Unlink` | src/memory/span.c:127-149 | walking a list removes exactly the given member |
| `Allocator.Heap.FindRefillSpan` | src/memory/valloc.c:126-137 | finds a span of the class with a free object exactly if there is one |
| `SpanLayout.ObjectsApart` | src/memory/span.c:6-68 | a span's objects do not overlap, lie within the mapping behind the span's own page, have room for header and capacity, and are aligned; one more would not fit |
| `SpanLayout.SpanHasRoom` | src/memory/span.c:37-71 | a mapping has room for two objects, so the branch for a span without objects is never taken |
| `SpanLayout.CountObjects` | src/memory/span.c:37-67 | computes that number of objects from class and page size |
| `Allocator.Heap.CreateSpan` | src/memory/span.c:22-98 | a new span with as many objects as its mapping holds, all free, or nothing when the system grants no mapping |
| `Allocator.Heap.ReclaimIfEmpty` | src/memory/span.c:151-166 | unmaps the span exactly when all its objects are on its central list |
| `Allocator.Heap.RefillCache` | src/memory/valloc.c:139-176 | fills from the queue of objects freed elsewhere, then from one span, the last one taken on top; fails exactly when fewer than 32 objects were freed elsewhere, no span has one and no mapping is granted |
| `Allocator.Heap.DrainCache` | src/memory/valloc.c:197-213 | the first 32 objects, or all there are, go to their spans; spans left empty are unmapped on the way |
| `Allocator.Heap.FreeSmall` | src/memory/valloc.c:215-236 | the object goes to the front of its owner's cache, or of the owner's queue when another processor frees it; when that list was full, the first 32 of the freeing processor's cache go home; every cache stays within 64 |
| `Allocator.Heap.MallocSmall` | src/memory/valloc.c:178-195 | hands out the head of the cache; fails exactly when the cache is empty and cannot be refilled |
| `Allocator.Heap.MallocLarge` | src/memory/valloc.c:274-311 | fails exactly when the sizes overflow or no mapping is granted |
| `Allocator.Heap.Malloc` | src/memory/valloc.c:313-355 | what it gives is nobody else's and as large as asked; it fails exactly when the totals are full or the system gives no memory that is needed |
| `Allocator.Heap.Free` | src/memory/valloc.c:357-398 | takes back exactly what the caller holds; a null pointer, or one that is mapped but not in use, changes nothing |
| `Allocator.Heap.Realloc` | src/memory/valloc.c:414-467 | without a pointer it is malloc; within its capacity an object keeps its place; otherwise the new one is taken before the old goes; it fails exactly when the allocation does, and then the old one is still held |
| `Allocator.OneOfFourPlaces` | src/memory/valloc.c:139-236 | each object is in exactly one of: a caller's hands, its span's list, one cache, its owner's queue |
| `Allocator.OnlyMappedMemory` | src/memory/span.c:151-166 | no list and no caller refers to unmapped memory |
| `Allocator.UnmappedIffFree` | src/memory/span.c:151-166 | a span is unmapped exactly when every one of its objects is on its own central list |
| `Allocator.NoEmptySpan` | src/memory/span.c:151-166 | between calls every mapped span has an object in use, in a cache or in a queue |
| `Allocator.FreeThenMalloc` | src/memory/valloc.c:178-236 | an object its own processor frees, without a drain, and then allocates again comes back, and all caches are as they were |
| `Allocator.AccountsBalance` | src/memory/valloc.c:313-398 | objects = active + free, free = central + cached, and the totals are the sums over what callers hold |
| `Channel.StepKeeps` | src/sync/channel.c:62-185 | every send, receive and close keeps the invariant |
| `Channel.FirstInFirstOut` | src/sync/channel.c:62-151 | for every capacity the i-th receive to arrive gets the value of the i-th accepted send |
| `Channel.SentIsAccounted` | src/sync/channel.c:62-185 | what was sent is what was delivered, then buffered, then parked, then discarded by a close; parked receivers meet neither buffered values nor parked senders |
| `Channel.WhoWaits` | src/sync/channel.c:62-151 | on an open channel a send is done at once exactly when sends are ahead of receives by less than the capacity, a receive exactly when they are ahead at all |
| `Channel.ClosedDrains` | src/sync/channel.c:102-185 | after a close the buffered values are delivered in order, one to each receive, and nothing more |
| `Channel.RingPush` | src/sync/channel.c:19-25 | a push appends to the ring, also across its end |
| `Channel.SlotIsModulo` | src/sync/channel.c:19-25 | the slot is the source's modulo |
| `Channel.Chan.BufferPush` | src/sync/channel.c:19-25 | the ring array after a push |
| `Channel.Chan.BufferPop` | src/sync/channel.c:27-34 | a pop returns the oldest value |
| `Channel.Chan.SendValue` | src/sync/channel.c:62-100 | send on the ring and the queues computes the step the laws are about, and wakes the oldest receiver |
| `Channel.Chan.ReceiveValue` | src/sync/channel.c:102-151 | receive likewise, with the value delivered, and wakes the oldest sender |
| `Channel.Chan.CloseChannel` | src/sync/channel.c:153-185 | close wakes all senders, then all receivers, oldest first |
| `TaskMutex.MutualExclusion` | src/sync/task_mutex.c:30-82 | the grants exceed the unlocks by at most one, the i-th owner is the i-th task that asked, a free mutex has no waiters |
| `TaskMutex.OwnerHandsOver` | src/sync/task_mutex.c:30-82 | a lock is granted at once exactly when every grant was unlocked; an unlock succeeds exactly for the last task granted and gives the mutex to the next that asked |
| `TaskMutex.Mutex.LockMutex` | src/sync/task_mutex.c:30-53 | lock computes that step |
| `TaskMutex.Mutex.UnlockMutex` | src/sync/task_mutex.c:55-82 | unlock likewise, and wakes the new owner |
| `Semaphore.PermitsConserved` | src/sync/semaphore.c:33-81 | initial + posts = permits + grants, no permit is kept from a waiter, grants in order of arrival |
| `Semaphore.PostServesNext` | src/sync/semaphore.c:33-81 | a wait succeeds at once exactly when grants are fewer than permits and posts; a post serves the next that asked |
| `Semaphore.TaskSemaphore.WaitPermit` | src/sync/semaphore.c:33-55 | wait computes that step |
| `Semaphore.TaskSemaphore.PostPermit` | src/sync/semaphore.c:57-81 | post likewise, refused only at the largest count |
| `WaitGroup.WaitersImplyCount` | src/sync/wait_group.c:31-92 | the count is the sum of the accepted deltas, parked tasks imply it is positive, and at zero everyone has been released |
| `WaitGroup.DeltasDecide` | src/sync/wait_group.c:31-92 | for every delta: accepted exactly when the sum fits and no positive delta meets parked tasks |
| `WaitGroup.Magnitude` | src/sync/wait_group.c:31-64 | the negation of every negative delta without overflow |
| `WaitGroup.Group.AddDelta` | src/sync/wait_group.c:31-64 | add computes that step and wakes everyone at zero |
| `WaitGroup.Group.WaitZero` | src/sync/wait_group.c:71-92 | wait likewise |
| `TimerHeap.RemovedOrder` | src/time/timer_heap.c:125-146 | after removing any node one of the two sifts is enough |
| `TimerHeap.RootIsLeast` | src/time/timer_heap.c:102-105 | the root is a minimum |
| `TimerHeap.Heap.Up` | src/time/timer_heap.c:16-28 | sifting up restores the order and the back-indices |
| `TimerHeap.Heap.Down` | src/time/timer_heap.c:30-53 | sifting down does |
| `TimerHeap.Heap.Push` | src/time/timer_heap.c:74-100 | adds the node exactly if it is in no heap and the array has room or can be doubled |
| `TimerHeap.Heap.Peek` | src/time/timer_heap.c:102-105 | an earliest node, nothing exactly when empty |
| `TimerHeap.Heap.PopNode` | src/time/timer_heap.c:107-123 | removes an earliest node and no other |
| `TimerHeap.Heap.RemoveNode` | src/time/timer_heap.c:125-146 | removes exactly the given node; one in no heap is left alone |
| `Timers.SleepersCanWake` | src/time/timer.c:49-124 | when handles are armed again only after the earlier call returned, every sleeper's timer is in a heap and knows it, and expiry and cancellation each wake it with their own outcome |
| `Timers.OneOutcomeEach` | src/time/timer.c:49-124 | in every run the arm calls a task has entered are those it has left, plus one while it is in one |
| `TimerCalls.EndedForCause` | src/time/timer.c:49-124 | in every run a call that returned expired was woken by an expiry on its own processor at or after its deadline, one that returned cancelled by a cancellation of its handle; either found it asleep, and it returned what it was woken with |
| `TimerCalls.OneCallEach` | src/time/timer.c:49-97 | how the call an arm begins is woken and returns is determined: it ends once |
| `Timers.UnsafeArmStrands` | src/time/timer.c:88-96 | arming a handle another call is still leaving strands the second task for ever |
| `Timers.ArmIsSafeIff` | src/time/timer.c:49-97 | arming can strand its task if and only if another call on the handle is still on its way out |
| `Timers.StrandingRun` | src/time/timer.c:88-96 | a run in which that happens |
| `TimerExpiry.ExpireDue` | src/time/timer.c:161-186 | takes out exactly the timers that are due, each once, earliest first, and wakes their tasks; on a heap that holds a processor's active timers this is that processor's expiry step, and the heap then holds what is left |
| `TimerExpiry.ArmTimer` | src/time/timer.c:49-97 | arming on the heap is the arm step, refused exactly as it is, and the heap still holds exactly the active timers |
| `TimerExpiry.CancelTimer` | src/time/timer.c:99-124 | so is cancelling |
| `HttpMessage.MeaningStays` | src/http/http_parser.c:268-321 | once the outcome is known more bytes do not change it |
| `HttpMessage.FragmentationIndependence` | src/http/http_parser.c:268-321 | for bytes within the capacity and every way of splitting them, feeding the pieces ends as feeding them at once |
| `HttpMessage.SplitMattersIff` | src/http/http_parser.c:281-287 | for bytes of any length: every split ends alike if and only if the bytes fit, or those up to the header limit hold no head and no body is allowed, or their head announces too long a body |
| `HttpMessage.SplitMatters` | src/http/http_parser.c:281-287 | an input, and a configuration a parser keeps, for which two splits end differently |
| `HttpMessage.Kept` | src/http/http_parser.c:27-56 | the limits a parser keeps are within the defaults, and are those given when these are |
| `HttpMessage.LineEndLocal` | src/http/http_parser.c:180-240 | searching for a line end never looks beyond the head |
| `HttpText.RequestLineReads` | src/http/http_parser.c:136-178 | every well-formed request line reads as its method, path and version |
| `HttpText.RequestLineText` | src/http/http_parser.c:136-178 | and every line that is accepted is the text of what it reads as |
| `HttpText.HeaderLineReads` | src/http/http_parser.c:180-216 | every well-formed header line reads as its name and value |
| `HttpText.HeaderLineText` | src/http/http_parser.c:180-216 | and every one that is accepted is a name and a value around a colon, with white space |
| `HttpRequests.HeadersRead` | src/http/http_parser.c:180-240 | header lines read as their headers in order; the one Content-Length gives the length, the last Connection header that says close or keep-alive decides |
| `HttpRequests.HeadersText` | src/http/http_parser.c:180-240 | and header lines that are accepted are such lines, with at most one length, a number |
| `HttpRequests.RequestReads` | src/http/http_parser.c:242-321 | for every well-formed request and whatever follows its head: the parser waits for the rest of the body, then gives that request and that body, and refuses a body announced too long |
| `HttpRequests.AcceptedIsText` | src/http/http_parser.c:242-321 | whatever is accepted is the text of a well-formed request, and its body the bytes that follow |
| `HttpRequests.ReadRequest` | src/http/http_parser.c:268-321 | a parser fed a well-formed request in whatever pieces, writing NULs into its buffer, gives that request and its body |
| `HttpParser.FindHeaderEnd` | src/http/http_parser.c:68-82 | finds the end of the first empty line |
| `HttpParser.TrimRange` | src/http/http_parser.c:126-134 | trims both ends of a range |
| `HttpParser.EqualsIgnoringCase` | src/http/http_parser.c:113-124 | compares without regard to case |
| `HttpParser.ParseRequestLine` | src/http/http_parser.c:136-178 | parsing the request line in place, overwriting its spaces, gives what the line means and changes nothing behind it |
| `HttpParser.ParseHeaders` | src/http/http_parser.c:180-240 | parsing the header lines in place gives what they mean |
| `HttpParser.ParseHeadInPlace` | src/http/http_parser.c:242-266 | parsing the head in place gives what the head means and changes nothing beyond it |
| `HttpParser.Parser.constructor` | src/http/http_parser.c:27-56 | a fresh parser keeps the limits it is given as far as allowed, has nothing and needs more |
| `HttpParser.Parser.FeedBytes` | src/http/http_parser.c:268-321 | one feed tells what all bytes taken so far mean |
| `HttpParser.ParsePieces` | src/http/http_parser.c:268-321 | a parser fed the pieces one by one, writing NULs into its buffer, tells what one fed everything at once would tell |

## Left out

Assumptions:

- Atomic accesses are sequentially consistent: fences and weaker orders are not modelled.
- Fibers are a step that runs a task's body until it yields, parks or returns; the assembly,
  stack mapping and the fault handler in `src/fiber` are not part of this model.
- Reading a decimal number (`strtoul` for Content-Length) is a parameter `Numbers`: any
  function of the header's value.
- Clocks, system calls, memory exhaustion and the kernel's answers are parameters of steps.
- No liveness: that a thread which can step does so is not assumed and not concluded.

Members that state less than the source does, or take larger steps:

- SchedulerStops.VerdictSoundInSafeRuns: that no live task sleeps rests on every sleeper being in a timer heap that can fire; a handle re-armed early breaks that (Timers.StrandingRun), and the scheduler model has no such handles.
- SchedulerTheorems.StepKeeps: after a shutdown it keeps counters, flags and places; what the cancelled tasks' callers see then is not modelled.
- SchedulerWaits.SyncWakeKeeps: synchronization objects appear in the scheduler only as wait queues; their own rules are in Channel.dfy and SyncObjects.dfy.
- EpollStale.DeliveredFaithfully: the system call on a ready descriptor, tracking what it accepted and giving the claim back are one step, and so are the last stale check and the closing of an accepted connection.
- Epoll.SubmissionsAccounted: waiters are kept by ticket, so the order of the waiter list and of the stale scan is not modelled.
- UringTheorems.StaleIffClosed: requests are values; a caller that changes its request while it is in flight, which the backend re-reads through a pointer, is not modelled.
- UringAnswers.DeliveredFaithfully: the stale check and the closing of an accepted connection are one step.
- Allocator.Heap.Realloc: the whole call is one step, although the lock is released between its look at the old object and the allocation of the new one; copying the contents is not modelled.
- Allocator.Heap.Free: pointers the allocator never gave out, or whose memory it has unmapped, are excluded, as the source reads a header in front of them.
- HttpParser.Parser.constructor: a buffer that could not be allocated is not modelled.
- TimerHeap.Heap.Push: a node is in at most one heap; a node active in another heap is refused, as in the source.
- RunQueue.Linearizable: counters are unbounded, so the wrap-around of 64-bit positions is not modelled.

The scheduler, the io_uring protocol and the epoll handle are modelled on values, not as
objects updated in place: their point is the interleaving.  Linked lists there are sequences,
so aliasing of list links is not captured.

Not modelled, because it would only add easy members:

- start and join of worker threads, rollback of a failed start, idle sleeping and wake-up eventfds of workers
- statistics other than those named above, and their getters
- destroying objects, and checks for null arguments and wrong callers other than for spawn
- `vl_sleep_ns` and the computation of poll timeouts
- arena, object pool, page heap accounting, debug canaries, calloc and allocator shutdown
- event flags and buffers of I/O requests, and the loopback socket helpers
- HTTP router, connection task, response writer
- benchmarks, examples, build and deployment scripts
