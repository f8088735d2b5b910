# Verification of syncbox

This project models, in Dafny, the futures-aware semaphore of syncbox, its thread parker and
`AtomicTask`, and the heart of `syncbox-fuzz`, the checker that runs code under every schedule:
the exploration path, the simulated memory with its vector clocks, the causal cells and the
simulated mutex. `dafny verify dfyconfig.toml` checks all of it.

## How it is modelled

**Protocols as machines.** The semaphore, the parker and `AtomicTask` are interleaving machines:
one step per atomic operation, any number of threads, a control state and locals for each.
A run is any list of actions; an action that is not enabled in its turn does nothing. History
variables record what the properties talk about (the sequence of all nodes ever made the tail of
the queue, tokens made and taken, where each task handle is). A failed assertion, `unwrap` or
panic sets `fault`, and nothing happens afterwards.

**Code in its own form.** Beside the machines stand the operations as the program writes them.

- `SemaphoreCalls.dfy`, `Parker.dfy` and `AtomicTask.dfy` run each call with arbitrary steps of
  the other threads between any two of its own, and prove that what happens is a run of the
  machine. A call that is still blocked, or still retrying, when the schedule given to it ends
  says so.
- `Semaphore.dfy` runs the semaphore's code on heap nodes, alone. Releases that other threads
  delegate arrive between the batches of `release_one`.
- `Path.dfy`, `Explorer.dfy`, `Scheduling.dfy`, `Atomic.dfy`, `VersionVec.dfy` and `Mutex.dfy` are
  the checker's own loops over its vectors, histories, clocks and threads, updated in place.

**Files.**

| files | subject |
|---|---|
| `SemaphoreMachine`, `SemaphoreInvariant`, `SemaphoreSteps`, `SemaphoreRuns` | the semaphore machine, its invariant, and the proof that every step keeps it |
| `SemaphoreTheorems`, `SemaphoreProgress` | FIFO refinement, permits, single consumer, absence of panics; progress of the lock holder |
| `SemaphoreWord` | the bits of the semaphore's word |
| `SemaphoreCallSteps`, `SemaphoreCalls` | the semaphore's calls under interference |
| `SemaphoreTasks`, `SemaphoreWakeups` | the semaphore with the `AtomicTask` of each waiter; when an assigned permit wakes its task |
| `SemaphoreStranding`, `StrandingRun` | exactly when it may not, and a run in which it does not |
| `ReleaseSpec`, `Semaphore` | what a release does to a queue; the code on heap nodes |
| `ParkerMachine`, `ParkerTheorems`, `Parker` | the parker |
| `AtomicTaskMachine`, `AtomicTaskTheorems`, `AtomicTaskWakeups`, `AtomicTask` | the task cell |
| `PathModel`, `PathTheorems`, `Path`, `PathMarks`, `Explorer`, `ExplorerTheorems` | exploration of schedules and reads |
| `Reduction`, `ReductionHistory`, `Scheduling` | the scheduler: where it asks for backtracks, told by the accesses of the execution; what it seeds |
| `Clients` | exploration of a program on that scheduler and the simulated memory |
| `VersionVec`, `Memory`, `HappensBefore`, `MemoryInvariant`, `MemoryOwners`, `MemoryTheorems`, `Atomic` | the simulated memory |
| `MemoryEffects`, `MemoryValues` | what each memory operation does entry by entry, and to the values held |
| `MemoryKnowledge`, `MemoryReads` | what a thread cannot know, and exactly which writes a load may return |
| `MutexMachine`, `MutexTheorems`, `Mutex` | the simulated mutex |
| `MutexParking` | parking and unparking under the scheduler |
| `MutexOrder` | the mutex together with the simulated memory |

**What is assumed of callers.**

- A `Waiter` is driven by one task. After `NotReady` the task calls only `acquire` until it
  succeeds, or cancels. Cancelling, `QueuedWaiting` to `Queued`, is described at
  `src/futures/semaphore.rs:87-93` but no function there does it; it is an action of the client.
- One thread at a time parks on a parker. Any thread may register with an `AtomicTask`; the
  theorems about sleeping need a single registering thread.
- A program under the checker is deterministic: what it does next is a function of the choices
  made so far. The theorems about exploration speak of any such program whose branch points are
  seeded afresh and whose backtracks name its own past; that this holds of a program that runs on
  the checker's own scheduler and memory is proved (`Clients.ClientWellBehaved`).
- The semaphore's nodes hold the `AtomicTask` of `syncbox_fuzz::futures` under the checker, a plain
  cell, and that of the `futures` crate otherwise (`src/futures/semaphore.rs:4`, `:15`), which is
  outside the repository. Neither is part of this model: `SemaphoreTasks` composes the semaphore
  with the repository's own `AtomicTask` of `src/futures/atomic_task.rs`.

**Properties that fail, and exactly when.**

- `Semaphore::new(permits)` loses the top bit of `permits`. The count is kept exactly if
  `permits < 2^63` (`NewRoundTrips`); 2^63 gives a word that `acquire_permit` asserts against
  (`NewOverflows`).
- The simulated mutex does not exclude if a thread that waits for a held mutex is unparked:
  `unpark_thread` makes any blocked thread runnable. `UnparkBreaks` is such a run, and
  `UnparkExact` shows that an unpark endangers the mutex if and only if it is of that kind.
- A task may be assigned a permit and never be told. If it registers for its next poll while a
  `notify` for its last permit still has to give the cell back, it is notified for that, before it
  has asked for anything; the release that then serves it finds the cell empty. `MeetingStrands` is
  such a run. `RegistrationExact` shows that a registration can end so if and only if a notifier of
  its cell has the cell still to give back and the poll can end in the queue, that is, the word
  names a tail or there is another task to take the permits. A task that never registers in that
  situation is always notified after the assignment (`SemaphoreWakeups.AssignedIsWoken`).
- A causal cell does not report every race. An access that some change of the cell does not happen
  before passes if and only if the thread's clock covers the cell's version all the same or has
  overtaken it, that is, is larger at the first entry that differs and smaller at a later one
  (`UnorderedPasses`). Both happen: the derived order on `VersionVec` is lexicographic and not
  pointwise (`LexBeyondLeq`, `RacePasses`), and spawning, unparking and changing a cell do not tick
  the thread's own entry, so that a clock may cover a change that does not happen before
  (`CoveredRacePasses`). Since the derived order accepts whatever happens-before accepts
  (`LeqImpliesLex`), cells raise no false alarm.
- The scheduler marks a thread for backtracking at an old branch without asking whether that
  branch has it. It indexes out of bounds if and only if some marked thread is younger than its
  branch (`PanicsExactly`), `YoungerPanics` is such an execution, and the exploration panics then
  and only then (`Explorer.RunOnce`, `CompletedFit`).

**Where code and comments differ** the code is followed. `Thread::is_enabled` of the path is true of
every thread that is not pending (`syncbox-fuzz/src/rt/path.rs:219-221`), so a backtrack for a
disabled thread does nothing, and it is a second one for a pending thread that puts up all the
others (`MarksLeave`, `RunExactly`). The simulated `unpark` leaves no token: one that finds its
thread runnable is forgotten, and the thread's next `park` waits for another
(`RestsUntilUnparked`). `SemState` is documented with two mode
bits and has one. `release_permits` is documented to return a boolean and returns nothing. `park` is
documented to return spuriously at times; without a timeout it never does (`TokensAccounted`).
`register_task` is documented so that every later `notify` reaches the caller's task; a call that
finds another one in progress drops its task instead (`NoLostWakeUp` has that case, and
`SingleConsumerDropsNothing` shows that one consumer never meets it).

## Model

| member | source | states |
|---|---|---|
| SemaphoreTheorems.StepInv | src/futures/semaphore.rs:137-514 | every atomic step of every poll, release, acquire and cancel keeps the invariant on queue, links, node states, `rx_lock` and counts |
| SemaphoreTheorems.RunInv | src/futures/semaphore.rs:137-514 | hence every run does, with any number of waiters and releasing threads |
| SemaphoreTheorems.NoPanic | src/futures/semaphore.rs:352-405 | no interleaving reaches the tail `unwrap`s, the stub assertion, the panic of `notify`, the assertion of `to_queued_waiting` or those of `acquire_permit` and `release_permits` |
| SemaphoreTheorems.StepRefines | src/futures/semaphore.rs:188-379 | each step is an enabled operation of a FIFO semaphore: taking needs permits and an empty queue, the push CAS appends, a head update removes the first waiter, permits are added only to an empty queue |
| SemaphoreTheorems.RunRefines | src/futures/semaphore.rs:137-379 | the operations of any run, in order, are a run of the FIFO semaphore and end in the same permits and queue |
| SemaphoreTheorems.ServedInPushOrder | src/futures/semaphore.rs:191-206 | the waiters pushed, in the order of their CASes, are those popped followed by those still queued: none lost, duplicated or overtaken, even when nodes are reused |
| SemaphoreTheorems.ListIsLinked | src/futures/semaphore.rs:197-204 | neighbours in the queue are linked or exactly one call owes the store; the tail has no successor; no node, the stub included, is queued twice; head and word name the ends |
| SemaphoreTheorems.NumberMode | src/futures/semaphore.rs:293-336 | with a permit count in the word: at least one permit, head is the stub and unlinked, no waiter queued, no push half done |
| SemaphoreTheorems.SingleConsumer | src/futures/semaphore.rs:234-257 | at most one call is inside `release_one`, `rx_lock` is 0 exactly when none is, and only that call moves `head` |
| SemaphoreTheorems.OneReference | src/futures/semaphore.rs:210-217 | a node is referred to at most once by queue, pusher and popper together; `revert_to_idle` acts on one that nobody else can reach |
| SemaphoreTheorems.Conservation | src/futures/semaphore.rs:137-276 | initial permits and releases equal permits available, obtained, assigned and not yet delivered, the holder's partly served batch counted exactly |
| SemaphoreTheorems.NeverOverIssued | src/futures/semaphore.rs:234-335 | if each release gives back an obtained permit, no more than the initial permits are ever out, and the shifted count and `rx_lock` stay bounded |
| SemaphoreTheorems.NothingStranded | src/futures/semaphore.rs:234-335 | with no call in progress, a waiting node means that every permit is held or assigned |
| SemaphoreTheorems.PollNeverRefused | src/futures/semaphore.rs:150-219 | a poll with a waiter takes a permit or leaves the task waiting with a permit assigned, its node queued, or its node with the call that popped it |
| SemaphoreTheorems.BarePollHarmless | src/futures/semaphore.rs:176-180 | a poll without a waiter takes a permit or changes nothing but its own progress |
| SemaphoreProgress.MeasureFalls | src/futures/semaphore.rs:283-379 | with no half-done push, each step of the lock holder lowers undelivered releases, then queue length, then a rank that covers stale locals |
| SemaphoreProgress.HolderFinishes | src/futures/semaphore.rs:246-276 | run alone from there, the holder leaves `release_one` with `rx_lock` at 0 and nothing undelivered |
| SemaphoreWord.AccessorsDecode | src/futures/semaphore.rs:554-569 | the accessors on raw bits read the mode, the count, the waiter and the stub that were encoded |
| SemaphoreWord.EncodeInjective | src/futures/semaphore.rs:655-669 | raw words are equal exactly when their meanings are |
| SemaphoreWord.NewRoundTrips | src/futures/semaphore.rs:544-560 | `new` then `available_permits` gives the count back if and only if it is below 2^63 |
| SemaphoreWord.NewOverflows | src/futures/semaphore.rs:544-546 | 2^63 permits give the word 1: number mode with no permit |
| SemaphoreWord.SemState.AcquirePermit | src/futures/semaphore.rs:578-594 | the bits become those of one permit less, or of the stub after the last one; unchanged and false on a pointer |
| SemaphoreWord.SemState.ReleasePermits | src/futures/semaphore.rs:599-610 | the bits become those of the sum, exact while it fits and otherwise what `new` makes of it |
| SemaphoreWord.SemState.SetWaiter | src/futures/semaphore.rs:631-636 | the bits become those of the node |
| SemaphoreWord.RawCasExact | src/futures/semaphore.rs:191-225 | over every disciplined run whose initial count fits, each compare-and-swap on raw bits succeeds exactly when the words it means are equal |
| SemaphoreTasks.StepInv | src/futures/semaphore.rs:150-219 | with an `AtomicTask` per waiter, whose `register` comes before `to_queued_waiting` and whose `notify` comes after the assigning compare-and-swap, every step of either keeps both invariants and what ties them: an assigned waiter's last task has been called for or is about to be |
| SemaphoreTasks.AssigneeTold | src/futures/semaphore.rs:482-505 | the thread that assigns a permit is free to call `notify` on that node's task, and does |
| SemaphoreTasks.AssignedWasNotified | src/futures/semaphore.rs:153-175 | in every run, a waiter whose node is assigned and whose task cell is at rest has had the task of its last poll notified exactly once, though perhaps before the assignment |
| SemaphoreWakeups.AssignedIsWoken | src/futures/semaphore.rs:153-175 | in every run in which the task registers only while no notifier has its cell still to give back, an assigned waiter whose cell is at rest has had the task of its last poll notified after the assigning compare-and-swap |
| SemaphoreWakeups.WaitersWokenOrNoPermit | src/futures/semaphore.rs:137-257 | in such a run, with no call in progress, a task told `NotReady` is assigned a permit and notified since, or is in the queue while no permit is available or undelivered |
| SemaphoreStranding.RegistrationExact | src/futures/semaphore.rs:153-175 | from every state that keeps the invariants, a registration can be followed, without another one by that task, by a state at rest in which the task has been assigned a permit and not notified since, if and only if a notifier has the cell still to give back and the word names a tail or there is another task |
| StrandingRun.MeetingStrands | src/futures/semaphore.rs:482-505 | a run that reaches such a registration, with one permit, one task and one releasing thread |
| SemaphoreCalls.Semaphore.ToQueuedWaiting | src/futures/semaphore.rs:453-477 | under any interference, with its retry loop: the node is waiting afterwards; either it must be pushed and its `next` is reset, or its old place in the queue was revived |
| SemaphoreCalls.Semaphore.PollPermit | src/futures/semaphore.rs:137-228 | under any interference the call is a run of the machine; it takes exactly one permit, or leaves the task waiting after at most one push, or without a waiter does nothing; a node prepared in vain is idle again; uninterrupted it takes a permit exactly if there is one |
| SemaphoreCalls.Semaphore.Pop | src/futures/semaphore.rs:283-379 | under any interference it returns the next waiter to be served, popped once, or adds `rem` permits once; it gives up only when the schedule ends while another call has a push half done |
| SemaphoreCalls.Semaphore.PushStub | src/futures/semaphore.rs:381-405 | under any interference there is something behind the head afterwards, neither permits nor waiters have moved by it, and the assertions on the previous tail hold |
| SemaphoreCalls.Semaphore.NotifyNode | src/futures/semaphore.rs:482-514 | under any interference, with its retry loop: true exactly if the call has one permit less to deliver |
| SemaphoreCalls.Semaphore.ReleaseN | src/futures/semaphore.rs:260-276 | under any interference it returns with all its permits delivered, unless the schedule ends while a push is half done |
| SemaphoreCalls.Semaphore.ReleaseOne | src/futures/semaphore.rs:234-257 | under any interference a call that finds `rx_lock` taken only counts itself in; the holder leaves with `rx_lock` at 0 when every release so far is a permit obtained, assigned or available |
| ReleaseSpec.ReleaseExact | src/futures/semaphore.rs:260-276 | each permit goes to one waiting node or is left over; any left over means an emptied queue; the last node popped was waiting |
| ReleaseSpec.BatchesAdd | src/futures/semaphore.rs:246-256 | releasing in two batches serves the same nodes and leaves the same permits as releasing once |
| ReleaseSpec.ReleaseIsFifo | src/futures/semaphore.rs:260-276 | a release is a run of enabled pops and at most one addition of permits of the FIFO semaphore |
| SemaphoreCode.WaiterNode.Acquire | src/futures/semaphore.rs:439-442 | true exactly from `Assigned`, which becomes `Idle` |
| ReleaseSpec.CancelPassesOn | src/futures/semaphore.rs:87-93 | a node cancelled in the queue gets no permit and becomes idle when it is popped; the permit it would have had goes to another waiting node, or one more is left over exactly if there were enough for all |
| SemaphoreCode.WaiterNode.ToQueuedWaiting | src/futures/semaphore.rs:453-477 | waiting afterwards; true, with `next` reset, exactly from `Idle` |
| SemaphoreCode.WaiterNode.Notify | src/futures/semaphore.rs:482-514 | assigns a waiting node, idles a cancelled one, and says which; the retry loop ends |
| SemaphoreCode.Semaphore.constructor | src/futures/semaphore.rs:111-128 | a valid list of the stub alone, with all permits available |
| SemaphoreCode.Semaphore.PollPermit | src/futures/semaphore.rs:137-228 | a permit is taken if there is one; else the waiter is appended, or a cancelled one revived in its place, or an absent one refused; nothing else changes |
| SemaphoreCode.Semaphore.FinishPush | src/futures/semaphore.rs:197-204 | the store of `next` restores the linked list, with the node at its end |
| SemaphoreCode.Semaphore.PushStub | src/futures/semaphore.rs:381-405 | the stub goes behind the only waiter and becomes the tail |
| SemaphoreCode.Semaphore.Pop | src/futures/semaphore.rs:283-379 | the first waiter, or none and `rem` more permits; the list stays linked and the inconsistent branches are dead |
| SemaphoreCode.Semaphore.ReleaseN | src/futures/semaphore.rs:260-276 | the nodes served, their new states, the rest of the queue and the permits left are those of the specification |
| SemaphoreCode.Semaphore.ReleaseOne | src/futures/semaphore.rs:234-257 | a delegated release is only counted; the lock holder delivers its own and all delegated ones, as if released at once, and leaves `rx_lock` at 0 |
| ParkerTheorems.StepInv | src/parker.rs:154-265 | every step of park, unpark, spurious wake-up and timeout keeps mutex, word, wake-up and token invariants |
| ParkerTheorems.NoPanic | src/parker.rs:170-207 | neither inconsistent-state panic nor the assertion on the swapped word is reachable |
| ParkerTheorems.NoLostWakeUp | src/parker.rs:254-264 | a sleeper with the token there has a `notify_one` still to come, and one about to wait has an unparker still before the lock |
| ParkerTheorems.TokensAccounted | src/parker.rs:154-211 | an untimed park returns with exactly one token, a timed one with at most one; untimed returns never exceed tokens made, nor those the calls of unpark |
| ParkerTheorems.UnparkThenPark | src/parker.rs:58-60 | after the swap of an unpark, a park returns at once with the token and leaves none |
| ParkerTheorems.TokenReleases | src/parker.rs:187-197 | from every reachable state with the token there and the thread inside its call, at most eight steps of calls in progress let it return with that token |
| ParkerTheorems.TimedReturns | src/parker.rs:198-210 | from every reachable state inside a call with a time limit, nine steps without any further unpark let it return |
| ParkerTheorems.UnparkAlone | src/parker.rs:246-252 | an unpark goes for the mutex and the condition variable exactly if its swap found the thread parked |
| ParkerCode.Parker.ParkInternal | src/parker.rs:154-211 | under any interference the call is a run of the machine, returns with its token if untimed, and otherwise is asleep or waits for an unparker that holds the mutex |
| ParkerCode.Parker.Block | src/parker.rs:168-184 | the same from the moment the mutex is held; the word found is EMPTY or NOTIFIED |
| ParkerCode.Parker.WaitForToken | src/parker.rs:187-197 | the untimed loop ends only with the token, however many spurious wake-ups there are |
| ParkerCode.Parker.WaitOnce | src/parker.rs:198-210 | the timed wait returns with at most one token; the word found is NOTIFIED or PARKED |
| ParkerCode.Parker.CondvarWait | src/parker.rs:189-190 | the mutex is given up, and held again when the wait returns |
| ParkerCode.Parker.Unpark | src/parker.rs:242-265 | its swap has happened when it returns; it can block only on the mutex, with its wake-up still owed |
| ParkerCode.Parker.PassLock | src/parker.rs:263-264 | takes and drops the mutex and notifies, from PARKED to rest |
| AtomicTaskTheorems.StepInv | src/futures/atomic_task.rs:184-279 | every step of any mix of registers and notifies keeps the invariants on bits, cell, handles and wake-ups |
| AtomicTaskTheorems.ExclusiveAccess | src/futures/atomic_task.rs:184-279 | no two threads are ever about to touch the cell; the `unwrap` and the assertions never fail |
| AtomicTaskTheorems.HandlesConserved | src/futures/atomic_task.rs:184-279 | each handle is in exactly one place: a hand, the cell, notified once, replaced, or dropped |
| AtomicTaskTheorems.NoLostWakeUp | src/futures/atomic_task.rs:114-138 | after its register call has returned, a later `fetch_or` never leaves a handle behind: it is notified, about to be, about to be taken, or gave way to another register |
| AtomicTaskTheorems.NeverStranded | src/futures/atomic_task.rs:126-138 | leave-work-then-notify against register-then-look, over any number of rounds and notifiers: once all calls have returned and work is left, a consumer that went to sleep has had the handle it sleeps on notified exactly once |
| AtomicTaskTheorems.SleepMayOverlapNotify | src/futures/atomic_task.rs:126-138 | a run of two rounds in which the consumer goes to sleep while an earlier notifier still holds the lock on the cell |
| AtomicTaskTheorems.SingleConsumerDropsNothing | src/futures/atomic_task.rs:231-242 | a single consumer never loses a handle to another register call |
| AtomicTaskWakeups.RegisterTellsItself | src/futures/atomic_task.rs:106-138 | in every run, a register call during which a `fetch_or` of `notify` comes, or that begins while a notify has the cell, has notified its own task exactly once by the time it returns |
| AtomicTaskWakeups.NobodyToldUnasked | src/futures/atomic_task.rs:184-244 | from any moment at which no notify is under way until the next one begins, registering, replacing and dropping wake no task |
| AtomicTaskWakeups.DroppedWhileRegistering | src/futures/atomic_task.rs:231-242 | a handle is dropped only at the first access of its register call, and only while another thread is registering |
| AtomicTaskCode.AtomicTask.RegisterTask | src/futures/atomic_task.rs:184-244 | under any interference the call is a run of the machine and its handle counts as registered when it returns, not before |
| AtomicTaskCode.AtomicTask.Locked | src/futures/atomic_task.rs:187-209 | the same from the moment it holds the lock; a failed release saw both bits |
| AtomicTaskCode.AtomicTask.SelfNotify | src/futures/atomic_task.rs:210-221 | the handle is still in the cell, is taken and is notified |
| AtomicTaskCode.AtomicTask.Notify | src/futures/atomic_task.rs:249-279 | when it returns, no handle registered before the call is left behind |
| AtomicTaskCode.AtomicTask.Wake | src/futures/atomic_task.rs:254-263 | takes the cell, gives the lock back and notifies what it took |
| PathModel.SuccessorShape | syncbox-fuzz/src/rt/path.rs:134-178 | the next path keeps the branches before some one, which takes its next alternative; nothing deeper had one; and if there is no next path nothing had |
| PathModel.AdvanceExact | syncbox-fuzz/src/rt/path.rs:142-157 | a schedule branch can take another alternative exactly if some thread is pending; then the active one becomes visited, the first pending one active, and no other entry changes |
| PathModel.MarkedKeeps | syncbox-fuzz/src/rt/path.rs:182-192 | a backtrack keeps the choice made, every waiting alternative and every spent one |
| PathTheorems.ExplorationComplete | syncbox-fuzz/src/rt/path.rs:79-178 | when `step` finally returns false, every alternative recorded at a branch of any execution has been taken after exactly that prefix of choices |
| PathTheorems.ExplorationNeverRepeats | syncbox-fuzz/src/rt/path.rs:79-178 | any two executions part at a branch that both reach, if write seeds have no duplicates |
| PathTheorems.StepLowers | syncbox-fuzz/src/rt/path.rs:134-178 | each successful `step` lowers the measure, a number in base breadth + 1 over branch positions |
| PathTheorems.RunNeverRaises | syncbox-fuzz/src/rt/path.rs:182-192 | backtracks and appended branches do not raise it |
| PathTheorems.ExplorationBounded | syncbox-fuzz/src/rt/path.rs:134-178 | so there are at most (breadth + 1) to the depth executions |
| ExplorationPath.Path.constructor | syncbox-fuzz/src/rt/path.rs:58-65 | an empty path |
| ExplorationPath.Path.BranchWrite | syncbox-fuzz/src/rt/path.rs:79-101 | appends the seed at the end of the path or replays the entry there; panics exactly on a wrong entry or an empty seed |
| ExplorationPath.Path.BranchThread | syncbox-fuzz/src/rt/path.rs:104-131 | likewise for threads, returning the active one |
| ExplorationPath.Path.Backtrack | syncbox-fuzz/src/rt/path.rs:182-192 | entry by entry: if the thread was not pending, it becomes so exactly if it was skipped, and no other entry changes; if it was, none is skipped any more and every entry that was not skipped is unchanged; other branches are unchanged; false exactly if there is no such thread branch or no such thread there |
| PathMarks.MarksLeave | syncbox-fuzz/src/rt/path.rs:182-192 | what any number of backtracks leave at a branch, in closed form: a skipped thread becomes pending exactly if one names it, or one names a thread that is pending by then; nothing else changes |
| ExplorationPath.Path.AdvanceLast | syncbox-fuzz/src/rt/path.rs:139-172 | the last branch takes its next alternative, or is popped from both vectors when there is none |
| ExplorationPath.Path.Step | syncbox-fuzz/src/rt/path.rs:134-178 | true exactly if a successor path exists, which it then is; empty otherwise |
| Explorer.RunOnce | syncbox-fuzz/src/fuzz.rs:109-112 | one execution follows the path, leaves older branches at most marked, seeds the new ones, forgets no backtrack and leaves at each branch exactly what the backtracks asked for leave; it panics exactly at the first backtrack for a thread that its branch does not have |
| Explorer.Fuzz | syncbox-fuzz/src/fuzz.rs:72-119 | from nothing or from the path kept by a checkpoint, the loop ends, its executions continue those before the checkpoint as one exploration, and either no path is left or the last execution panicked at such a backtrack |
| ExplorerTheorems.SeedsTaken | syncbox-fuzz/src/rt/path.rs:79-131 | every write that a load could read at a reached branch, and the default thread, has been chosen there |
| ExplorerTheorems.VisitedTaken | syncbox-fuzz/src/rt/path.rs:142-147 | a thread marked visited has been run there |
| ExplorerTheorems.BacktracksTaken | syncbox-fuzz/src/rt/path.rs:182-192 | every backtrack asked for in any execution has been carried out, unless the thread was disabled there |
| ExplorerTheorems.BranchLeft | syncbox-fuzz/src/rt/path.rs:182-192 | in every execution: what is left of a branch, entry by entry, from how it was found and the backtracks asked for |
| ExplorerTheorems.RepeatedMarksTaken | syncbox-fuzz/src/rt/path.rs:185-191 | if two backtracks, of one execution or of two, name a thread that waits at a branch, every thread enabled there has been run after the same choices |
| ExplorerTheorems.RunExactly | syncbox-fuzz/src/rt/path.rs:104-192 | after a finished exploration, a thread has been run at a branch after given choices if and only if it is the default there, or is enabled there and some execution with these choices asked for it: by name, or by naming a thread that was pending |
| ExplorerTheorems.CompletedFit | syncbox-fuzz/src/rt/path.rs:182-192 | in executions that did not panic every backtrack named a thread that its branch has |
| ExplorerTheorems.DisabledNeverRun | syncbox-fuzz/src/rt/path.rs:104-131 | a disabled thread is never scheduled |
| ExplorerTheorems.DefaultExecutionsRun | syncbox-fuzz/src/fuzz.rs:93-119 | every execution under the default schedule, with any legal reads, has been run exactly |
| ExplorerTheorems.ExecutionsDiffer | syncbox-fuzz/src/fuzz.rs:93-119 | no two executions make the same choices, and their number is bounded |
| Scheduling.Default | syncbox-fuzz/src/rt/execution.rs:154-166 | the active thread if it can run, else the first that can, else none |
| Scheduling.SeedIsSeeded | syncbox-fuzz/src/rt/execution.rs:162-176 | the seed is a fresh branch point as exploration requires; exactly the threads that cannot run are disabled; the active thread goes on if it can, else exactly the first that can is picked |
| Scheduling.Seed | syncbox-fuzz/src/rt/execution.rs:162-176 | the iterator with its mutable `initial` yields that seed |
| Scheduling.Choose | syncbox-fuzz/src/rt/execution.rs:154-188 | on a new or a replayed branch, it picks a thread that can run, nobody only if none can, and reports a deadlock exactly if threads are left then |
| Scheduling.Execution.Backtracks | syncbox-fuzz/src/rt/execution.rs:137-152 | the nested loops make exactly the backtracks of the reduction, in order, and panic exactly if one does not fit; `ReductionHistory.MarksExact` says which these are |
| Scheduling.ApplyLeaves | syncbox-fuzz/src/rt/execution.rs:143-151 | a series of backtracks panics exactly if one names no thread branch or no thread of it, and otherwise leaves of each branch the closed form |
| Scheduling.Execution.Schedule | syncbox-fuzz/src/rt/execution.rs:130-212 | the backtracks, then the choice, then the access of the chosen thread, on the path and on the access clocks; it panics exactly at a backtrack that does not fit |
| Scheduling.Execution.MakeAccess | syncbox-fuzz/src/rt/execution.rs:190-205 | the thread learns what its access depends on, ticks, and is remembered with the branch |
| Clients.ClientWellBehaved | syncbox-fuzz/src/rt/execution.rs:130-212 | every deterministic program with bounded executions, run on this scheduler and memory, has the fresh branch points and the past backtracks that the exploration theorems ask for |
| Clients.LoadsExhausted | syncbox-fuzz/src/sync/atomic/atomic.rs:146-173 | after a finished exploration of such a program, at each load reached, the writes that some execution went on with after the same choices are exactly those that the load may return |
| Clients.RacesReversed | syncbox-fuzz/src/rt/execution.rs:137-152 | whenever in some execution of the program a thread is about to store or rmw an atomic of which it does not know the last load or rmw, to load or rmw one of which it does not know the last store or rmw, or to act on another object of which it does not know the last operation, that thread has been run, after the same choices, where that access was scheduled, unless it could not run there |
| ReductionHistory.MarksExact | syncbox-fuzz/src/rt/object.rs:92-134 | in every execution, told by a log of its steps: thread t is asked for at branch i if and only if t is about to write an atomic whose last read, to read an atomic whose last write, or to act on another object whose last operation was scheduled at i and exceeds t's clock in the derived order |
| ReductionHistory.PickedLearns | syncbox-fuzz/src/rt/execution.rs:190-205 | in every execution, the picked thread's clock becomes the least that covers its own and those of the accesses its operation depends on, with its own entry one larger; no other clock moves |
| ReductionHistory.QuietLearnsNothing | syncbox-fuzz/src/rt/execution.rs:61-74 | a new thread has its creator's clock of accesses; no other step between branches moves such a clock |
| ReductionHistory.PickedCanRun | syncbox-fuzz/src/rt/execution.rs:162-176 | in every execution, a thread that is picked was last left able to run, by itself at the scheduler or by another |
| Reduction.MarksNameThePast | syncbox-fuzz/src/rt/execution.rs:137-152 | in every execution a backtrack names a schedule branch already taken and a thread that exists now, and comes from a dependent access of another thread |
| Reduction.PanicsExactly | syncbox-fuzz/src/rt/path.rs:182-192 | the scheduler indexes out of bounds if and only if some marked thread is younger than the branch |
| Reduction.YoungerPanics | syncbox-fuzz/src/rt/execution.rs:145-151 | a complete execution with three threads in which that happens |
| VersionVectors.JoinIsLeast | syncbox-fuzz/src/rt/vv.rs:34-38 | the join is the least clock above both |
| VersionVectors.LeqImpliesLex | syncbox-fuzz/src/rt/vv.rs:6-9 | pointwise order implies the derived order |
| VersionVectors.LexTotal | syncbox-fuzz/src/rt/vv.rs:6-9 | the derived order relates any two clocks |
| VersionVectors.LexExact | syncbox-fuzz/src/rt/vv.rs:6-9 | two clocks of one length are in the derived order if and only if they are equal or the first is smaller where they first differ |
| VersionVectors.LexBeyondLeq | syncbox-fuzz/src/rt/vv.rs:6-9 | so it goes beyond the pointwise order exactly if the first is smaller there and larger at some later entry |
| VersionVectors.VersionVec.constructor | syncbox-fuzz/src/rt/vv.rs:12-16 | the zero clock |
| VersionVectors.VersionVec.Increment | syncbox-fuzz/src/rt/vv.rs:30-32 | one slot is bumped in place |
| VersionVectors.VersionVec.JoinWith | syncbox-fuzz/src/rt/vv.rs:34-38 | in place, the join; the other vector is untouched, also when the two share their array |
| VersionVectors.VersionVec.AtMost | syncbox-fuzz/src/rt/vv.rs:6-9 | the derived comparison, by a scan for the first difference |
| Memory.Oldest | syncbox-fuzz/src/sync/atomic/atomic.rs:155-170 | where the candidates of a load end: nothing newer is within its causality, and the end is, or is the first write |
| MemoryInvariant.DoOk | syncbox-fuzz/src/sync/atomic/atomic.rs:52-190 | every operation keeps the clocks along each history ordered and each first sight within the seer's own entry, only adds knowledge, and leaves the clock of its event below all that it touched, released, spawned or woke |
| MemoryOwners.OwnersKnowBest | syncbox-fuzz/src/rt/execution.rs:61-88 | in every execution no clock of a thread, a write, a cell or the sequentially consistent operations is ahead of a thread's own entry for itself |
| MemoryKnowledge.KnowledgeExact | syncbox-fuzz/src/rt/synchronize.rs:20-58 | in every execution: a thread knows whatever an event with an edge into it passed on, and of another thread no more than some such event did; a write passes on no more than was released with it or an earlier one, the clock of sequential consistency no more than such operations did; all that an event knows of another thread it has heard from that thread along edges |
| MemoryReads.LoadsExact | syncbox-fuzz/src/sync/atomic/atomic.rs:146-173 | in every execution, a load may return a write if and only if no newer one was touched by an event that the thread knows its owner to have reached, or stored by a sequentially consistent operation when the load is one |
| MemoryEffects.ReadEffect | syncbox-fuzz/src/rt/synchronize.rs:20-34 | entry by entry and order by order, what a read teaches its thread, and that no other thread learns |
| MemoryEffects.RelaxedLearnsNothing | syncbox-fuzz/src/rt/synchronize.rs:22-24 | a load with `Relaxed` or `Release` leaves every clock as it was but the thread's own entry for itself, which is one larger |
| MemoryEffects.RelaxedPassesOn | syncbox-fuzz/src/rt/synchronize.rs:38-40 | a store with `Relaxed` or `Acquire` passes on exactly what the write before it does, and teaches nothing |
| MemoryEffects.RmwEffect | syncbox-fuzz/src/sync/atomic/atomic.rs:77-95 | a read-modify-write, entry by entry: what is learnt, who has seen the newest write, and value, clock, flag and first sight of the one added |
| MemoryEffects.CasEffect | syncbox-fuzz/src/sync/atomic/atomic.rs:116-143 | a read-modify-write that stores the new value with the success order exactly if the newest value is the expected one, else a load of it with the failure order |
| MemoryEffects.SpawnEffect | syncbox-fuzz/src/rt/execution.rs:61-74 | a new thread starts with what its creator knows and one step of its own; nothing else changes |
| MemoryValues.ExecuteValues | syncbox-fuzz/src/sync/atomic/atomic.rs:52-143 | in every execution the values of all histories are those of plain registers on which the same commands were carried out: threads, orders and clocks make no difference |
| MemoryValues.CounterExact | syncbox-fuzz/src/sync/atomic/atomic.rs:77-95 | a location that is only added to by one holds, after any run, its old newest value plus the number of additions, and its history is longer by as many |
| MemoryTheorems.ExecuteOk | syncbox-fuzz/src/rt/synchronize.rs:20-58 | in every execution each event's clock is below that of every event it has an edge to, through program order, spawn, unpark, release and acquire, or a later sequentially consistent operation |
| MemoryTheorems.MemoryCoherent | syncbox-fuzz/src/sync/atomic/atomic.rs:52-190 | no read returns a write older than one that happens-before it touched, over any number of locations; a read-modify-write reads the newest; a sequentially consistent load does not read past the newest such write |
| MemoryTheorems.CellAccessPasses | syncbox-fuzz/src/sync/causal.rs:29-52 | an access that comes after creation and all changes of the cell passes the clock assertion |
| MemoryTheorems.NoFalseAlarm | syncbox-fuzz/src/sync/causal.rs:11-58 | an execution whose cell accesses are so ordered never fails one |
| MemoryTheorems.RacePasses | syncbox-fuzz/src/sync/causal.rs:40-58 | an execution of two threads in which two changes of a cell, neither before the other, both pass |
| MemoryTheorems.UnorderedPasses | syncbox-fuzz/src/sync/causal.rs:22-58 | in every execution, an access that some change of the cell does not happen before passes if and only if the thread's clock covers the cell's version or has overtaken it |
| MemoryTheorems.CoveredRacePasses | syncbox-fuzz/src/rt/execution.rs:61-74 | an execution of four commands in which two changes, neither before the other, both pass with no clock overtaken, since spawning does not tick the parent |
| SimulatedAtomics.Execution.constructor | syncbox-fuzz/src/rt/execution.rs:41-58 | the root thread alone, on an empty path |
| MemoryOwners.SpawnOrders | syncbox-fuzz/src/rt/execution.rs:61-74 | the new thread knows all that its creator does, and no other thread's clock covers the new one |
| MemoryOwners.UnparkOrders | syncbox-fuzz/src/rt/execution.rs:76-88 | the woken thread learns all that the waking one knows, forgets nothing, and learns nothing else |
| MemoryInvariant.SeqCstGrows | syncbox-fuzz/src/rt/execution.rs:223-226 | a point of sequential consistency only adds knowledge, and afterwards the thread knows all earlier such points and the global clock knows the thread |
| SimulatedAtomics.Execution.SyncRead | syncbox-fuzz/src/rt/synchronize.rs:20-34 | entry by entry: an acquiring read joins the write's clock, a sequentially consistent one the global clock too, any other nothing; no other thread learns |
| SimulatedAtomics.Execution.SyncWrite | syncbox-fuzz/src/rt/synchronize.rs:36-50 | entry by entry: a releasing write passes on the thread's clock as well as that of the write before, any other only the latter |
| MemoryInvariant.MessagePassing | syncbox-fuzz/src/rt/synchronize.rs:36-50 | what a thread knew at a releasing write is known to whoever acquires that write |
| MemoryOwners.TickFresh | syncbox-fuzz/src/rt/thread.rs:176-179 | after the tick no other thread's clock covers the active one |
| SimulatedAtomics.IsSeenBy | syncbox-fuzz/src/sync/atomic/atomic.rs:230-243 | true exactly if some thread known to the clock saw the write by then |
| SimulatedAtomics.TouchSeen | syncbox-fuzz/src/sync/atomic/atomic.rs:218-228 | grows the vector and records only a first sight |
| SimulatedAtomics.CandidatesReadable | syncbox-fuzz/src/sync/atomic/atomic.rs:155-170 | the candidates are exactly the readable writes, without duplicates, newest first |
| SimulatedAtomics.Seed | syncbox-fuzz/src/sync/atomic/atomic.rs:155-170 | the scan with its mutable flag yields the candidates, newest first |
| SimulatedAtomics.Atomic.constructor | syncbox-fuzz/src/sync/atomic/atomic.rs:36-50 | one write, seen by its creator |
| SimulatedAtomics.Atomic.PickWrite | syncbox-fuzz/src/sync/atomic/atomic.rs:146-173 | the write that the path chooses is readable |
| SimulatedAtomics.Atomic.Load | syncbox-fuzz/src/sync/atomic/atomic.rs:52-63 | the value of a readable write; what is learnt and who has seen the write, entry by entry; all values stay |
| SimulatedAtomics.Atomic.DoWrite | syncbox-fuzz/src/sync/atomic/atomic.rs:175-190 | appends a write that inherits the clock of the one before |
| SimulatedAtomics.Atomic.Store | syncbox-fuzz/src/sync/atomic/atomic.rs:65-72 | one write more, with this value last and all older ones unchanged; what is learnt and passed on, entry by entry |
| SimulatedAtomics.Atomic.Rmw | syncbox-fuzz/src/sync/atomic/atomic.rs:77-95 | returns the newest value and adds its image under the function as the newest; every older value is unchanged; what is learnt and passed on, entry by entry |
| SimulatedAtomics.Atomic.CompareExchange | syncbox-fuzz/src/sync/atomic/atomic.rs:116-143 | if the newest value is the expected one, the new one is added last with the success order; else all values stay and the newest write is read with the failure order |
| MemoryTheorems.ExecuteCover | syncbox-fuzz/src/sync/causal.rs:11-20 | in every execution the version of a cell covers the clock of its creation and of every change |
| MemoryTheorems.AccessExact | syncbox-fuzz/src/sync/causal.rs:22-38 | an access passes if and only if the thread's clock covers the cell's version or has overtaken it |
| MemoryTheorems.UnknownChangePasses | syncbox-fuzz/src/sync/causal.rs:40-58 | in every execution, an access that does not know of some change of the cell passes if and only if its clock has overtaken the version |
| MutexTheorems.StepInv | syncbox-fuzz/src/sync/mutex.rs:42-90 | every step of every thread and scheduler choice keeps: a waiter is blocked just while its mutex is held, and a pending operation on a mutex is a waiter's, if the unparks are fair |
| MutexTheorems.Exclusion | syncbox-fuzz/src/sync/mutex.rs:42-67 | in every such schedule an acquisition is carried out only while the mutex is free |
| MutexTheorems.OnlyWaitersTouched | syncbox-fuzz/src/sync/mutex.rs:50-89 | acquiring and releasing change no thread but those waiting for that mutex |
| MutexTheorems.UnparkExact | syncbox-fuzz/src/rt/execution.rs:76-88 | an unpark makes a second acquisition possible if and only if its target waits for a held mutex |
| MutexTheorems.UnparkBreaks | syncbox-fuzz/src/rt/execution.rs:85-87 | a run in which that happens |
| MutexParking.OthersExact | syncbox-fuzz/src/sync/mutex.rs:50-89 | what changes the state of a thread that is not active: an unpark while it is stopped, and taking or giving back the mutex that its operation is on; nothing else does |
| MutexParking.OwnExact | syncbox-fuzz/src/rt/mod.rs:36-71 | what changes its own: parking, yielding, ending, and finding a mutex held |
| MutexParking.UnparkedMayRun | syncbox-fuzz/src/rt/execution.rs:76-88 | after the unpark of a parked or yielded thread, at every call of the scheduler until it is picked, it may be picked, and the scheduler does not find that nobody can run |
| MutexParking.SpawnedMayRun | syncbox-fuzz/src/rt/execution.rs:61-74 | likewise for a new thread |
| MutexParking.RestsUntilUnparked | syncbox-fuzz/src/rt/mod.rs:36-44 | a thread that parks or yields is not picked again before some other unparks it; one that has ended, never |
| MutexOrder.StepInv | syncbox-fuzz/src/sync/mutex.rs:42-90 | with every acquire and release a point of sequential consistency of the simulated memory, each fair step of mutexes, threads and memory keeps: events under one mutex are ordered by happens-before, and each earlier section has ended before the mutex was taken again |
| MutexOrder.FencesOrder | syncbox-fuzz/src/sync/mutex.rs:45-73 | what a thread did before it gave a mutex back comes before what another does after it takes one later |
| MutexOrder.SectionsOrdered | syncbox-fuzz/src/sync/mutex.rs:42-90 | in every fair schedule, what is done under a mutex comes before whatever is done under it later |
| MutexOrder.RootFirst | syncbox-fuzz/src/rt/execution.rs:61-74 | what the root thread does before it creates another comes before everything else |
| MutexOrder.GuardedCellsPass | syncbox-fuzz/src/sync/causal.rs:22-58 | in every fair schedule, cells whose accesses are made under their mutex, or before there is a second thread, never fail an assertion |
| SimulatedMutex.Threads.BranchAcquire | syncbox-fuzz/src/rt/object.rs:180-194 | blocks the active thread exactly if the mutex is held, and records the operation |
| SimulatedMutex.Threads.Unpark | syncbox-fuzz/src/rt/execution.rs:76-88 | any other thread that was blocked or yielded is runnable afterwards, whatever it is blocked on; its other fields and all other threads are unchanged, and so is one that was runnable or has ended |
| SimulatedMutex.Mutex.BeginAcquire | syncbox-fuzz/src/sync/mutex.rs:42-43 | the first half of `acquire` is the machine's |
| SimulatedMutex.Mutex.FinishAcquire | syncbox-fuzz/src/sync/mutex.rs:45-66 | after the point of sequential consistency the loop blocks every other thread with an operation on the mutex; under the invariant the lock was free |
| SimulatedMutex.Mutex.Release | syncbox-fuzz/src/sync/mutex.rs:69-90 | the lock is free, the point of sequential consistency is made, and the loop wakes them |

## Left out

- HolderFinishes: speaks of the holder run alone with no push half done; with one half done the holder retries until the pusher has stored its link, and fairness of the scheduler is not modelled.
- TokenReleases: gives a schedule by which the parked thread returns, not a guarantee under every scheduler, since fairness of the mutex is not modelled.
- WaitOnce: time is not modelled; a timeout may come at any moment, and only whether the duration is zero matters.
- MemoryCoherent: a sequentially consistent operation happens before what follows a later one in its thread, not before that later one itself, because a sequentially consistent store releases before it joins the global clock; for loads the separate claim closes this gap. The value that a read-modify-write stores is part of its command in the memory model; `Atomic.Rmw` ties it to the function.
- BacktracksTaken: speaks of the backtracks of any program as exploration sees it; `RacesReversed` is its form for the scheduler's own. Everything marked is explored; that everything which should be explored gets marked (completeness of the partial-order reduction) is not claimed.
- ToQueuedWaiting: the form on heap nodes is run alone, where its compare-and-swap succeeds at once; the form under interference has the retry loop.
- PollPermit: likewise on heap nodes; failed compare-and-swaps and `revert_to_idle` are in the form under interference.
- Pop: likewise on heap nodes; the three inconsistent branches are in the form under interference.
- Polling a `Waiter` again while it waits or has been assigned a permit, and dropping a semaphore with queued nodes, are outside its contract.
- `swap` and `compare_and_swap` of the simulated atomics, which wrap `rmw` and `compare_exchange`.
- The simulated condition variable, which is built from the mutex, `park` and `unpark`.
- Weak memory orderings in `src/`: its atomics are interleaved atomic steps.
- The data behind cells, mutex guards and reference counts; clocks are values in `Atomic.dfy`, so aliasing between clocks is treated in `VersionVec.dfy` only.
- Scheduler back ends, thread-locals, generators, the arena, reading and writing checkpoint files, logging and `Debug` implementations.
- `future_notify`, whose contract is unfinished.
