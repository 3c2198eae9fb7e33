# A coroutine RTOS kernel, verified

This project models a small real-time kernel for C++20 coroutines and proves what it promises.
The kernel keeps ready lists by priority, a delay list ordered by deadline on a wrapping 32-bit
tick counter, and wait lists that live inside queues, semaphores, mutexes and event groups. A
wait node may be on a wait list and on the delay list at once; whichever comes first, the event
or the tick, takes it off both. Every claim worth making therefore depends on several lists at
the same time, and the model keeps them in one shared state.

`dafny verify dfyconfig.toml` checks everything.

## How it is built

* **State and steps.** `Kernel` holds the shared state and describes each critical section as a
  function from state to state; `Timer`, `Semaphore`, `Mutex`, `Queue` and `EventGroup` do the
  same for ticks and primitives. Fields that only record history (arrivals, grants, values
  given, the unbounded clock and absolute deadlines) are never read by an operation.
* **Promises.** `Effects` says what a critical section can do to the kernel: leave it untouched,
  suspend the current task at a new node, wake one waiter. `Promises` says, for each operation,
  which of these it does when, what becomes of the primitive, and what it answers on the spot;
  conditions on event bits are spelled out flag by flag (`Bits`). `PromisedSystem` and
  `PromiseRuns` carry this to the whole system and to runs.
* **Code.** `Scheduling.Scheduler`, `HostPort.Port`, `SemaphoreCode.CountingSemaphore`,
  `MutexCode.TaskMutex`, `QueueCode.BoundedQueue`, `EventGroupCode.Group`, `Pool.FramePool` and
  the node and list classes of `IntrusiveList` are the imperative code: fields updated in place,
  loops with invariants. Each method is proved to perform exactly the step that the functions
  describe, including the ring buffer of the queue, the scan of the delay list, and the
  traversal of the waiters while they are being unlinked.
* **Runs.** `System` puts one kernel and any number of primitives side by side; `Runs` takes any
  interleaving of task calls, interrupt handlers and ticks. `Guarantees`, `TimerBound`,
  `BarrierRuns` and the ends of other modules state what holds in every state of every run.
* **Schedulers.** Three machines decide who runs: `Reentrant`, nested `run_one` calls on one machine
  stack; `Preempt`, the same stack with nested critical sections, `run_one` pumped anywhere, and
  in the preemptive build the handler of the host port; `MainLoop`, the loop on top of that
  machine, in either build, masking interrupts and sleeping. `ResumeStack` is what the first two
  share. `ReentrantRuns` and `PreemptRuns` hold their theorems over runs, and `Embedding` shows
  that what the machines do is a run in the sense of `Runs`, so that all theorems about runs are
  theorems about them.
* **Tasks.** `Async` is one task: coroutine frames linked by continuations, proved to behave like
  plain nested calls; `Sequential` says the same of a task stopped anywhere. `Coroutines` puts
  any number of such tasks over the kernel: their requests are its critical sections, and it
  decides which of them goes on.

## What is assumed

* Timeouts are at most 2^31 - 1 ticks wherever true time order is claimed. This is the exact
  bound: allow one tick more and there is a run in which an overdue waiter is left behind
  (`TimerBound.PunctualExactly`), although README.md:194-195, README.md:410 and
  include/rtos/config.hpp:12-13 of the repository speak of about 49.7 days. All other results hold
  for any timeout.
* In `Preempt` code leaves only critical sections it has entered, and a task suspends outside
  those it has entered itself (include/rtos/port/host.hpp:56-61); it may be resumed inside those of
  its caller.
* Blocking calls come from the running task, `lock` not from the owner, `unlock` only from the
  owner (include/rtos/kernel.hpp:91-95, include/rtos/mutex.hpp:33, include/rtos/mutex.hpp:52-56),
  and a task does not finish while it owns a mutex.
* The constructor of the semaphore does not check `initial <= max` (include/rtos/semaphore.hpp:18-19);
  only the bound on the count depends on it.
* The barrier theorem is for participants with disjoint non-zero masks whose union is the wait
  mask, in a group whose other users neither set nor clear these bits; they may watch them, and
  may use the other bits in any way, another rendezvous included.
* Only live frames are given back to the pool.

## Model

| member | source | states |
|---|---|---|
| Time.DeadlineLeExact | include/rtos/kernel.hpp:16-19 | for instants less than half a counter span apart the wrapped comparison is the comparison of the true instants |
| Time.HalfSpanIsTheExactBound | include/rtos/kernel.hpp:16-19 | the comparison alone: distances up to a bound are all ordered truly, at every instant, if and only if the bound is below 2^31; what this means for the timer is in `TimerBound` |
| Time.ToTicksIsLeast | include/rtos/task.hpp:19-29 | a number of ticks covers a duration exactly if it is at least the converted one: never short, never a tick too long; no ticks cover a duration of zero or less |
| IntrusiveList.UnlinkPlaced | include/rtos/intrusive_list.hpp:8-27 | rewriting the two neighbours represents the node's removal from whichever ring held it, all other rings and all order kept, and changes nothing for a self-looped node |
| IntrusiveList.InsertFits | include/rtos/intrusive_list.hpp:29-34 | the four pointer writes represent insertion before the given position, prev and next staying mutually inverse on all rings |
| IntrusiveList.ListNode.Unlink | include/rtos/intrusive_list.hpp:23-27 | on the heap: the pointers afterwards are those of the rings without the node, which loops to itself |
| IntrusiveList.ListNode.InsertBefore | include/rtos/intrusive_list.hpp:29-34 | on the heap: the pointers afterwards are those of the rings with the node at its place |
| IntrusiveList.List.PushBack | include/rtos/intrusive_list.hpp:43 | appends to its own list and leaves all others |
| IntrusiveList.List.Front | include/rtos/intrusive_list.hpp:45 | the first node, or null exactly for an empty list |
| IntrusiveList.List.PopFront | include/rtos/intrusive_list.hpp:47-54 | removes and returns the first node; an empty list changes nothing |
| IntrusiveList.List.UnlinkChosen | include/rtos/event_group.hpp:188-200 | reading the successor before unlinking visits each node that was on the list once, in order, and leaves those not chosen in order |
| Scheduling.Scheduler.MarkReady | include/rtos/kernel.hpp:54-69 | a task that is not Ready goes to the end of its priority's list, pending the handler if it is above the running one |
| Scheduling.Scheduler.InsertDelayed | include/rtos/kernel.hpp:71-84 | the scanning loop puts the node where the specification does |
| Scheduling.Scheduler.BlockCurrent | include/rtos/kernel.hpp:88-106 | the current task is Blocked at a new node, on its wait list, its deadline armed, and its resume point is the one given |
| Scheduling.Scheduler.WakeNode | include/rtos/kernel.hpp:110-116 | the node is off every list and its task Ready, in one step |
| Scheduling.Scheduler.StartTask | include/rtos/kernel.hpp:120-132 | without a frame nothing changes and failure is reported; otherwise a new task at the clamped priority becomes Ready, to be resumed at its frame |
| Scheduling.Scheduler.TickIsr | include/rtos/kernel.hpp:135-145 | the loop wakes the nodes of the specification and stops |
| Scheduling.Scheduler.DispatchReady | include/rtos/kernel.hpp:162-174 | the scan takes the head of the most urgent list below the limit, or changes nothing |
| Scheduling.Scheduler.EnterRunOne | include/rtos/kernel.hpp:157-177 | dispatches, keeps the caller's registers and yields the point at which the task is to be resumed |
| Scheduling.Scheduler.LeaveRunOne | include/rtos/kernel.hpp:178-181 | restores the caller's registers and nothing else |
| Scheduling.Scheduler.AnyReady | include/rtos/kernel.hpp:255-261 | true exactly if a dispatch would find a task |
| Scheduling.Scheduler.YieldCurrent | include/rtos/kernel.hpp:273-281 | the running task goes to the end of its own list, to be resumed at the given point |
| Scheduling.Scheduler.SleepFor | include/rtos/time.hpp:15-26 | zero ticks do not suspend and store no resume point; otherwise the task waits on the delay list only, to be resumed at the given point |
| Scheduling.Scheduler.Destroy | include/rtos/task.hpp:56-63 | a finished task is gone, its resume point with it |
| KernelProofs.WakeKeepsInv | include/rtos/kernel.hpp:108-116 | waking keeps the whole-kernel invariant |
| KernelProofs.BlockKeepsInv | include/rtos/kernel.hpp:86-106 | blocking, with any combination of list and timeout, keeps it |
| KernelProofs.DispatchKeepsInv | include/rtos/kernel.hpp:162-174 | dispatching keeps it |
| KernelProofs.YieldKeepsInv | include/rtos/kernel.hpp:273-281 | yielding keeps it and leaves all other lists and nodes alone |
| KernelProofs.StartKeepsInv | include/rtos/kernel.hpp:120-132 | starting a task keeps it |
| KernelProofs.WakeEffect | include/rtos/kernel.hpp:108-116 | a woken node leaves every list, its task goes to the end of its ready list, and no other node changes |
| KernelProofs.FinishKeepsInv | include/rtos/task.hpp:56-63 | finishing a task keeps it |
| Effects.BlockSuspends | include/rtos/kernel.hpp:86-106 | blocking suspends the current task and no other, at a new node that is last on its wait list and has a deadline exactly if a timeout was given, that far ahead |
| Effects.WakeWakes | include/rtos/kernel.hpp:108-116 | waking takes one node off every list and makes its task Ready, last in its list, pending the handler exactly if that is above the running task |
| Promises.StartPromise | include/rtos/kernel.hpp:120-132 | a started task is Ready, last in the list of its clamped priority; nothing else moves |
| Promises.YieldPromise | include/rtos/kernel.hpp:272-281 | a yielding task is Ready, last in the list of its priority; nothing else moves |
| Promises.DispatchPromise | include/rtos/kernel.hpp:162-174 | the head of the most urgent list below the limit becomes current and Running; without one nothing changes |
| Promises.SleepPromise | include/rtos/time.hpp:15-26 | sleeping suspends for exactly the given ticks on no list; with none it changes nothing |
| System.StepKeeps | include/rtos/kernel.hpp:51-182 | every critical section of kernel and primitives keeps the invariant of the kernel and of all primitives at once |
| Runs.RunsAreValid | include/rtos/kernel.hpp:51-182 | the invariant holds in every state of every run |
| Runs.ReadyOnce | include/rtos/kernel.hpp:54-60 | a Ready task is on exactly one ready list, its priority's, exactly once |
| Runs.BlockedOwnsOneNode | include/rtos/kernel.hpp:21-32 | a Blocked task owns exactly one linked node, on at most one wait list and at most once on each list |
| Runs.LinkedIsBlocked | include/rtos/kernel.hpp:108-116 | no linked node belongs to a task that is not Blocked; a Running task is on no list |
| Runs.WaitingOrWokenOnce | include/rtos/kernel.hpp:108-116 | in every state of every run a node is linked or has been woken exactly once, never both |
| Runs.OutcomesAreFinal | include/rtos/kernel.hpp:108-116 | once a node has been woken nothing changes its outcome, whatever runs until its task does |
| Timer.PositionIsTrue | include/rtos/kernel.hpp:71-84 | the wrapped scan splits the delay list where the true deadlines do |
| Timer.BlockKeepsTime | include/rtos/kernel.hpp:71-106 | arming a timeout keeps the list in true deadline order, FIFO among equals, all within half a span |
| Timer.TickKeepsTime | include/rtos/kernel.hpp:135-145 | a tick keeps it, through any number of wraps |
| Timer.TickIsExact | include/rtos/kernel.hpp:135-145 | a tick wakes exactly the waiters whose true deadline has arrived and leaves every other node as it was |
| WakeOrder.TickReadiesInOrder | include/rtos/kernel.hpp:135-145 | each ready list gains exactly the due tasks of its priority, at its end, in true deadline order, FIFO among equals |
| WakeOrder.EarlierFirst | include/rtos/kernel.hpp:135-145 | of two waiters of one priority woken by one tick the one with the earlier deadline, or armed first, is ahead in the ready list |
| Runs.RunsArePunctual | include/rtos/kernel.hpp:135-145 | in every state of every run with bounded timeouts nobody was woken early and nobody overdue still waits |
| WakeOrder.TicksReadyInOrder | include/rtos/kernel.hpp:135-145 | so it is at every tick of every run with bounded timeouts |
| TimerBound.PunctualExactly | include/rtos/kernel.hpp:16-19 | the timer over whole runs: all runs with timeouts up to a bound wake nobody early and leave nobody overdue, if and only if the bound is below 2^31 |
| TimerBound.LoneWaiter | include/rtos/kernel.hpp:135-145 | a waiter alone on the delay list is woken by the first tick exactly if its timeout is at most 1 or above 2^31 |
| TimerBound.ZeroBehindHalfSpan | include/rtos/kernel.hpp:71-84 | behind a waiter armed at the same instant for 2^31 ticks, one armed for none is put last; the next tick leaves it waiting, overdue |
| Reentrant.ActKeeps | include/rtos/kernel.hpp:147-182 | every task step, interrupt, nested call and return keeps the discipline of the resume stack |
| ReentrantRuns.RunsAreDisciplined | include/rtos/kernel.hpp:147-182 | at any nesting depth the stacked tasks are distinct and Running and the registers name the innermost |
| ReentrantRuns.NeverResumedTwice | include/rtos/kernel.hpp:150-156 | a nested call never resumes a task that is on the stack |
| ReentrantRuns.ReturnNamesCaller | include/rtos/kernel.hpp:178-181 | on return the registers name the caller again, which is Running |
| ReentrantRuns.CallsActOnCaller | include/rtos/kernel.hpp:154-156 | what a nested task calls never stops a task below it |
| ReentrantRuns.CallSelects | include/rtos/kernel.hpp:161-174 | `run_one` resumes the head of the most urgent list |
| ReentrantRuns.RoundRobin | include/rtos/kernel.hpp:157-182 | a task at index i is resumed by the (i+1)-th call, whatever happens in between, if nothing more urgent is ready at those calls |
| PreemptRuns.RunsAreControlled | include/rtos/kernel.hpp:157-238 | in every state of every run of either build, pumping at any depth included, registers, stack, critical sections and handler are consistent |
| PreemptRuns.PreemptionGuarantee | include/rtos/kernel.hpp:61-68 | in the preemptive build, while a task runs outside critical sections and not on top of the handler, no ready task is more urgent than it or than any task that pumps `run_one` below it, and the registers are its own |
| PreemptRuns.GuardedOrPended | include/rtos/kernel.hpp:61-68 | inside critical sections as well, unless the handler is pended |
| PreemptRuns.ReturnHidesNothing | include/rtos/kernel.hpp:178-181 | when `run_one` returns with nothing pending the restored priority is at least as urgent as the one that was running and nothing ready is above it: pending against the innermost priority misses no wake-up |
| PreemptRuns.PendingIsMasked | include/rtos/port/host.hpp:17-43 | a pend survives only inside a critical section or an active handler |
| PreemptRuns.HandlerRunsMoreUrgent | include/rtos/kernel.hpp:193-222 | the handler resumes only tasks strictly more urgent than the interrupted one, most urgent first, and leaves only when there is none |
| PreemptRuns.HandlerRestores | include/rtos/kernel.hpp:193-222 | from before the handler to after it, whatever it ran or pumped: current, running_prio and the stack of resumed tasks are what they were |
| PreemptRuns.SelectsWhom | include/rtos/kernel.hpp:161-219 | `run_one` and the handler alike select the head of the most urgent list |
| HostPort.Port.IrqDisable | include/rtos/port/host.hpp:32 | nesting depth goes up by one |
| HostPort.Port.IrqEnable | include/rtos/port/host.hpp:34-43 | only the outermost exit with a pend, outside the handler, starts the handler; exactly the machine's step |
| HostPort.Port.Scan | include/rtos/kernel.hpp:193-238 | one turn of the handler, its end and its tail-chaining are exactly the machine's step |
| MainLoop.LoopsAreValid | include/rtos/kernel.hpp:247-270 | in either build, every state of every run of the main loop meets the invariant of loop, mask, handler and scheduler |
| MainLoop.NeverSleepsOnWork | include/rtos/kernel.hpp:252-268 | with a ready task the loop is never about to sleep nor asleep, in either build |
| MainLoop.ServedInOrder | include/rtos/kernel.hpp:262-268 | interrupts are neither lost nor reordered |
| MainLoop.NoWakeupLost | include/rtos/kernel.hpp:262-268 | when the next pass starts every handler that was pending during check or sleep has run |
| MainLoop.SelectedLater | include/rtos/kernel.hpp:251-269 | a task woken that way is resumed by the (i+1)-th selection, by `run_one` or by the handler, if nothing more urgent is ready at those |
| MainLoop.IdlePassSleeps | include/rtos/kernel.hpp:252-268 | a pass that finds no work sleeps, and goes on only with an interrupt pending |
| MainLoop.BusyPassRuns | include/rtos/kernel.hpp:252-264 | a pass that finds work calls `run_one` with a ready task |
| Embedding.CooperativeWeaves | include/rtos/kernel.hpp:147-182 | every run of the machine of nested `run_one` calls is a run of critical sections |
| Embedding.HostWeaves | include/rtos/kernel.hpp:193-238 | so is every run of the host port, in either build |
| Embedding.LoopWeaves | include/rtos/kernel.hpp:247-270 | so is every run of the main loop |
| Embedding.CooperativePunctual | include/rtos/kernel.hpp:135-145 | with bounded timeouts nobody is woken early or left overdue, at any nesting of `run_one` |
| Embedding.HostPunctual | include/rtos/kernel.hpp:135-145 | nor on the host port, whatever the handler interrupts |
| Embedding.LoopPunctual | include/rtos/kernel.hpp:135-145 | nor in the main loop, asleep or not |
| Embedding.CooperativeOutcomes | include/rtos/kernel.hpp:108-116 | the outcome of a woken node is final under nested `run_one` calls |
| Embedding.HostOutcomes | include/rtos/kernel.hpp:108-116 | and on the host port |
| Embedding.LoopOutcomes | include/rtos/kernel.hpp:108-116 | and in the main loop |
| Embedding.CooperativeBarrier | include/rtos/event_group.hpp:93-114 | every state belongs to a run with a sound rendezvous: bits as arrived, equal numbers of rounds |
| Embedding.HostBarrier | include/rtos/event_group.hpp:93-114 | likewise on the host port |
| Embedding.LoopBarrier | include/rtos/event_group.hpp:93-114 | likewise in the main loop |
| Embedding.WorldWeaves | include/rtos/task.hpp:39-66 | what any number of coroutine tasks do is a run of critical sections |
| Requests.OutcomeIsTruthful | include/rtos/kernel.hpp:108-116 | of requests that waited, exactly those not told of a timeout were served |
| PromisedSystem.EveryPromiseIsKept | include/rtos/kernel.hpp:51-182 | every operation of the system does to its primitive and the kernel what it promises, answers so, and leaves all other primitives alone |
| PromiseRuns.PromisesAreKept | include/rtos/kernel.hpp:51-182 | at every step of every run |
| PromiseRuns.TimeoutInTime | include/rtos/kernel.hpp:71-84 | every request that waits has exactly the timeout it was given: it does not time out before, and waits no more once that many ticks have passed; without a timeout it never times out |
| PromiseRuns.TimedRequestIsReported | include/rtos/queue.hpp:97-169 | once its ticks have passed, a timed acquire, send, receive or event wait is settled, and reports success exactly if it was served |
| PromiseRuns.SpotIsReported | include/rtos/semaphore.hpp:40-60 | a request that is served without waiting reports success, whatever its unused wait node holds |
| PromiseRuns.SleepIsExact | include/rtos/time.hpp:15-26 | a sleeping task is woken exactly when its ticks have passed |
| Semaphore.AcquireKeeps | include/rtos/semaphore.hpp:23-60 | conservation and FIFO order are kept by acquiring, at once or by waiting |
| Semaphore.ReleaseKeeps | include/rtos/semaphore.hpp:81-93 | they are kept by releasing |
| Semaphore.TimeoutKeeps | include/rtos/kernel.hpp:135-145 | they are kept by a timeout out of the middle of the list |
| Semaphore.NoTheft | include/rtos/semaphore.hpp:13-15 | while somebody waits no acquire succeeds on the spot; the next permit goes to the first waiter and the count stays zero |
| Semaphore.AcquireForIsTruthful | include/rtos/semaphore.hpp:40-60 | a timed acquire that waited reports success exactly if it was granted a permit |
| Semaphore.AcquireReports | include/rtos/semaphore.hpp:23-79 | success on the spot exactly if the caller was granted the permit; otherwise it waits, last in line, or leaves no trace |
| Promises.AcquirePromise | include/rtos/semaphore.hpp:23-60 | with a permit there it is taken and the acquire passes; otherwise the caller waits, its timeout armed |
| Promises.TryAcquirePromise | include/rtos/semaphore.hpp:72-79 | succeeds exactly with a permit there, and takes it; otherwise nothing changes |
| Promises.ReleasePromise | include/rtos/semaphore.hpp:81-93 | succeeds exactly if somebody waits, who is woken, or the count is below the maximum, and then goes up by one; a failure changes nothing |
| Promises.ReleasedIsAcquired | include/rtos/semaphore.hpp:72-93 | a permit released with nobody waiting is there for the next `try_acquire` |
| Guarantees.PermitsConserved | include/rtos/semaphore.hpp:23-93 | over whole runs: initial + released = count + granted, count within max, waiters only at zero, grants in arrival order |
| Guarantees.PermitIsKept | include/rtos/semaphore.hpp:40-60 | a timed acquire that waited reports success exactly if it got the permit, whenever its task runs |
| SemaphoreCode.CountingSemaphore.constructor | include/rtos/semaphore.hpp:18-19 | starts with the given count and maximum |
| SemaphoreCode.CountingSemaphore.Acquire | include/rtos/semaphore.hpp:23-60 | performs the specified step on counter and kernel |
| SemaphoreCode.CountingSemaphore.TryAcquire | include/rtos/semaphore.hpp:72-79 | likewise |
| SemaphoreCode.CountingSemaphore.Release | include/rtos/semaphore.hpp:81-93 | likewise |
| Mutex.Exclusion | include/rtos/mutex.hpp:22-64 | a task holds the lock, resumed or not, exactly if it is the owner |
| Mutex.OwnerNotWaiting | include/rtos/mutex.hpp:26-36 | waiters imply an owner, who is not among them |
| Mutex.NoBarging | include/rtos/mutex.hpp:42-50 | while somebody waits `try_lock` fails and `lock` queues up behind |
| Mutex.HandoffLeavesNoGap | include/rtos/mutex.hpp:52-64 | unlocking with waiters makes the first of them the owner at once; `try_lock` still fails |
| Mutex.LockKeeps | include/rtos/mutex.hpp:22-38 | locking keeps exclusion, the ledger of holders and FIFO order |
| Mutex.UnlockKeeps | include/rtos/mutex.hpp:52-64 | so does unlocking |
| Promises.LockPromise | include/rtos/mutex.hpp:22-38 | a free lock is the caller's; otherwise it waits, without a timeout |
| Promises.TryLockPromise | include/rtos/mutex.hpp:42-50 | succeeds exactly if the lock is free, and takes it; otherwise nothing changes |
| Promises.UnlockPromise | include/rtos/mutex.hpp:52-64 | the lock is always given back: the first waiter is woken and has it, or it is free |
| Promises.UnlockGivesBack | include/rtos/mutex.hpp:52-64 | the caller does not hold it any more |
| Promises.UnlockedIsLocked | include/rtos/mutex.hpp:42-64 | given back with nobody waiting it goes to whichever task asks next |
| Guarantees.MutexExcludes | include/rtos/mutex.hpp:22-64 | in every state of every run at most one task holds the lock, and it is not waiting |
| Guarantees.MutexIsFair | include/rtos/mutex.hpp:52-64 | in every state of every run: the lock is granted in order of arrival, and all holders but the present owner have given it back, in that order |
| MutexCode.TaskMutex.Lock | include/rtos/mutex.hpp:22-38 | performs the specified step on owner and kernel |
| MutexCode.TaskMutex.TryLock | include/rtos/mutex.hpp:42-50 | likewise |
| MutexCode.TaskMutex.Unlock | include/rtos/mutex.hpp:52-64 | likewise |
| QueueProofs.MatchedInOrder | include/rtos/queue.hpp:24-25 | refused and timed-out requests removed, the i-th receive got the value of the i-th send |
| QueueProofs.Conserved | include/rtos/queue.hpp:215-239 | surviving sends are the values given, buffered and offered, in this order; surviving receives those served and waiting |
| QueueProofs.NobodyStranded | include/rtos/queue.hpp:215-239 | senders wait only at a full buffer, receivers only at an empty one, never both |
| QueueProofs.NoOvertaking | include/rtos/queue.hpp:43-57 | a try operation never passes a waiter; it is refused exactly if nobody receives and the buffer is full |
| QueueProofs.OutcomesAreTruthful | include/rtos/queue.hpp:117-125 | a timed receive reports a value exactly if one was given, and that value; a timed send reports success exactly if its value was taken |
| QueueProofs.SendReports | include/rtos/queue.hpp:43-46 | success on the spot exactly if the caller's value left it; the value on record is the caller's |
| QueueProofs.SendKeeps | include/rtos/queue.hpp:128-169 | sending keeps matching, order, capacity and slots |
| QueueProofs.ReceiveKeeps | include/rtos/queue.hpp:68-126 | so does receiving |
| QueueProofs.TimeoutKeeps | include/rtos/kernel.hpp:135-145 | so does a timeout out of the middle of either list |
| Promises.TrySendPromise | include/rtos/queue.hpp:215-229 | the value is handed to the first waiting receiver or goes to the end of the buffer; refused exactly if neither is possible, and then nothing changes |
| Promises.SendPromise | include/rtos/queue.hpp:128-169 | a send does the same, or waits with its value on offer and its timeout armed |
| Promises.TryReceivePromise | include/rtos/queue.hpp:49-57 | yields the oldest value, the first waiting sender's taking its place at the end; on an empty buffer nothing, and nothing changes |
| Promises.ReceivePromise | include/rtos/queue.hpp:68-126 | a receive does the same, or waits with an empty slot and its timeout armed |
| PromiseRuns.ReceivedOnTheSpot | include/rtos/queue.hpp:49-57 | over runs: a receive answered on the spot reports the oldest value in the buffer, which is that of the send it matches in order |
| Guarantees.QueueMatches | include/rtos/queue.hpp:43-169 | matching in every state of every run |
| Guarantees.QueueStrandsNobody | include/rtos/queue.hpp:43-169 | nobody stranded in any state of any run |
| Guarantees.GivenIsKept | include/rtos/queue.hpp:117-125 | a value handed over is reported however many ticks pass before the task runs |
| Guarantees.GivenIsReported | include/rtos/queue.hpp:97-126 | a timed receive that waited reports a value exactly if it was served |
| Guarantees.TakenIsReported | include/rtos/queue.hpp:160-168 | a timed send that waited reports success exactly if its value was taken, whenever its task runs |
| QueueCode.WindowPush | include/rtos/queue.hpp:198-203 | writing at the wrapped end of the ring appends |
| QueueCode.WindowPop | include/rtos/queue.hpp:205-213 | advancing the wrapped head takes the first element |
| QueueCode.BoundedQueue.PushSlot | include/rtos/queue.hpp:198-203 | the contents gain the value at their end |
| QueueCode.BoundedQueue.PopSlot | include/rtos/queue.hpp:205-213 | the contents lose their first value, which is returned |
| QueueCode.BoundedQueue.DeliverOrPush | include/rtos/queue.hpp:215-229 | performs the specified step on ring buffer and kernel |
| QueueCode.BoundedQueue.HandOver | include/rtos/queue.hpp:215-224 | the first waiting receiver is given the value and woken |
| QueueCode.BoundedQueue.WakeOneSender | include/rtos/queue.hpp:231-239 | the first waiting sender's value is appended and the sender woken |
| QueueCode.BoundedQueue.TrySend | include/rtos/queue.hpp:43-46 | performs the specified step |
| QueueCode.BoundedQueue.TryReceive | include/rtos/queue.hpp:49-57 | likewise |
| QueueCode.BoundedQueue.Send | include/rtos/queue.hpp:128-169 | likewise |
| QueueCode.BoundedQueue.Receive | include/rtos/queue.hpp:68-126 | likewise |
| EventGroup.HoldsExactly | include/rtos/event_group.hpp:168-171 | the test is what it is meant to be, flag by flag: every wanted flag is set, or for an any-wait some wanted flag is |
| EventGroup.SetIsExact | include/rtos/event_group.hpp:185-202 | `set` wakes precisely the waiters whose condition is satisfied, flag by flag, by old and new bits, all with that snapshot, and keeps the others in order |
| WakeOrder.SetReadiesInOrder | include/rtos/event_group.hpp:185-202 | each ready list gains the tasks of its priority that `set` wakes, at its end, in the order in which they began to wait |
| EventGroup.SetClearsUnion | include/rtos/event_group.hpp:185-202 | it clears exactly the union of the woken waiters' clear-on-exit masks |
| EventGroup.SetLeavesFlags | include/rtos/event_group.hpp:185-202 | a flag is set after `set` exactly if it was, or was raised, and no waiter woken asked for its clearing |
| Promises.SetPromise | include/rtos/event_group.hpp:148-151 | exactly the waiters whose condition the raised flags satisfy are woken, with those flags; left are the raised flags less those that a woken waiter clears |
| Promises.WaitPromise | include/rtos/event_group.hpp:43-87 | a wait passes or suspends as its condition says, for all flags |
| Promises.ClearPromise | include/rtos/event_group.hpp:154-160 | exactly the given flags go |
| Promises.SyncPromise | include/rtos/event_group.hpp:93-114 | `sync` sets, then passes exactly if all bits raised so far contain every wanted flag, with those bits, the wanted flags taken; otherwise it waits for all of them |
| EventGroup.SetKeeps | include/rtos/event_group.hpp:148-151 | after it no waiter's condition holds on the bits that are left |
| EventGroup.WaitKeeps | include/rtos/event_group.hpp:43-87 | waiting keeps that invariant |
| EventGroup.SyncKeeps | include/rtos/event_group.hpp:93-114 | so does the rendezvous |
| EventGroup.WaitReports | include/rtos/event_group.hpp:173-183 | passing at once exactly if the condition is satisfied, flag by flag, with the bits there are; clear-on-exit takes exactly the wanted flags; otherwise the caller waits, its request on record and its timeout armed |
| EventGroup.ClearIsExact | include/rtos/event_group.hpp:154-160 | takes exactly the given flags away and returns the old bits |
| EventGroup.WaitIsTruthful | include/rtos/event_group.hpp:61-87 | a wait that blocked reports a snapshot exactly if a `set` woke it, and its condition is satisfied by it, flag by flag |
| Guarantees.NoMetWaiter | include/rtos/event_group.hpp:155-202 | in no state of any run is a waiter's condition, flag by flag, satisfied by the present bits |
| Guarantees.SnapshotIsKept | include/rtos/event_group.hpp:61-87 | a timed wait reports the snapshot it was woken with, on which its condition holds, whenever its task runs and whatever the bits are by then |
| EventGroupCode.Group.VisitWaiters | include/rtos/event_group.hpp:187-200 | the loop, though nodes leave the list under it, does what visiting the initial list does |
| EventGroupCode.Group.Set | include/rtos/event_group.hpp:148-151 | performs the specified step on bits and kernel |
| EventGroupCode.Group.Clear | include/rtos/event_group.hpp:154-160 | likewise, returning the old bits |
| EventGroupCode.Group.Wait | include/rtos/event_group.hpp:43-87 | likewise |
| EventGroupCode.Group.Sync | include/rtos/event_group.hpp:93-114 | likewise |
| Barrier.ShownComplete | include/rtos/event_group.hpp:89-92 | the bits hold the whole mask exactly when everybody has arrived |
| Barrier.RendezvousExists | include/rtos/event_group.hpp:89-92 | distinct participants with disjoint non-zero masks have a sound rendezvous for exactly one wait mask, the union |
| Arriving.LastArrival | include/rtos/event_group.hpp:99-112 | the last to arrive passes and releases all others, all with one snapshot that contains the mask, which is cleared |
| Arriving.EarlyArrival | include/rtos/event_group.hpp:99-112 | whoever arrives before that waits and releases nobody |
| BarrierRuns.RoundStep | include/rtos/event_group.hpp:93-114 | a step is the arrival that completes the round for all, or leaves the round as it is |
| BarrierRuns.BarrierOverRuns | include/rtos/event_group.hpp:93-114 | in every state the set bits of the mask are those of the participants arrived in the present round, and all have completed equally many rounds |
| BarrierRuns.NobodyAheadNobodyStranded | include/rtos/event_group.hpp:93-114 | nobody completes a round before all arrived in it; nobody is left behind by fast re-arrivals |
| Pool.PartitionSize | include/rtos/pool.hpp:57-63 | free and live blocks together are all blocks |
| Pool.FramePool.Initialize | include/rtos/pool.hpp:24-30 | the loop links all blocks, each once |
| Pool.FramePool.Allocate | include/rtos/pool.hpp:19-36 | fails exactly if the frame does not fit or all blocks are live; otherwise hands out a block that was not live |
| Pool.FramePool.Deallocate | include/rtos/pool.hpp:38-55 | the block is free again, and first in line |
| Pool.FramePool.FreeCount | include/rtos/pool.hpp:57-63 | the walk ends and counts all blocks minus the live ones (zero before the first allocation) |
| Async.StepKeepsChain | include/rtos/task.hpp:126-140 | suspending, resuming, awaiting and returning keep the continuation chain acyclic, from the innermost coroutine to the task's frame, holding every frame there is |
| Async.RunsKeepChain | include/rtos/task.hpp:202-220 | the chain is in order along every run and always ends at the same task frame |
| Async.NestedIsCall | include/rtos/task.hpp:202-220 | frames and continuations make the same requests, with the same results, as running the bodies with plain nested calls, callers untouched; for a body that does not end within the fuel they have run for at least as many steps |
| Async.TaskIsCall | include/rtos/task.hpp:54-66 | so does a whole task, which leaves no frame behind |
| Sequential.TaskSoFarIsCall | include/rtos/task.hpp:202-220 | wherever a task stands, suspended or not, it has made exactly the requests its body makes as a plain program with the replies so far; once finished, it has that program's result |
| Coroutines.RunsAreSound | include/rtos/task.hpp:39-66 | with many tasks over one kernel, in every state: a task is Running exactly while its frames execute, and its frames are those of a sequential run of its body |
| Coroutines.TasksAreCalls | include/rtos/task.hpp:202-220 | however tasks are interleaved, nested and preempted, each makes exactly the requests of its body run as a plain program with plain nested calls, given the replies it got, and finishes with its result |
| Coroutines.ResumesWhereItAsked | include/rtos/task.hpp:45-47 | the dispatch that next runs a suspended task resumes the very coroutine that asked, with its reply; the stored resume point and all other frames are untouched by what runs in between |
| Coroutines.BodyStays | include/rtos/kernel.hpp:120-132 | a task keeps the body it was started with and uses replies in the order in which it gets them |

## Left out

- The Cortex-M and RISC-V ports, start-up code and `src/abort.cpp`: register access without an algorithm; the host port's depth counter stands for critical sections.
- The window on hardware between the last scan of the preemption handler and its restoring of the running priority (include/rtos/kernel.hpp:215-221): an interrupt there is outside the host model.
- `sync_wait`: whether it ends depends on the pump its caller supplies.
- Heap mode, `alloc_failed_hook`, traps and contract macros, except as preconditions.
- Object lifetimes, moves and frame layout of C++: values are values and frames are records; a nested coroutine is created where it is awaited, not kept for later.
- Destroying a primitive that tasks wait on, and giving a block back twice: the code defines no behaviour.
- `size`, `capacity`, `count`, `locked`, `get` and the chrono overloads: wrappers.
- The scheduler classes hold lists as sequences of node numbers in fields; that circular pointers realise such sequences is the subject of `IntrusiveList`, where the two are proved to agree operation by operation.
- Tasks and wait nodes are entries of maps, numbered in order of creation, not objects inside coroutine frames; numbers are not reused as addresses would be.
- The body of `resume()` is not called by a method: `run_one` and the handler are split at it, and what runs in between is any sequence of steps of the machines in `Reentrant` and `Preempt`.
- Resume points are stored by the scheduler class and by the task machines of `Async` and `Coroutines`; the `Kernel` value of the step functions, which never look at them, does not carry them.
- The replies to requests are arbitrary values in `Coroutines`; what each primitive replies is stated with the primitive.
- Async.NestedIsCall: the evaluator has a fuel argument because bodies may loop for ever; the statement is for every amount of fuel, so it covers every finite part of every run.
- HostPort.Port.IrqEnable: the abort on an unbalanced call is a precondition.
