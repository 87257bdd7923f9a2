# A verified model of trale's runtime

trale is a single-threaded async runtime on io_uring. Its correctness rests on structures that
refer to each other by recycled indices: handles name result slots, pending entries name slots and
wakers, wakers name keys of the waiting slab, and a counting semaphore in the kernel stands for a
mutex. This project models all of that as one state machine and proves what every interleaving of
tasks, kernel, completions and other threads keeps.

## How it is built

| modules | content |
|---|---|
| `Slabs`, `Reactor`, `ReactorCode` | the slab, the two result stores, `submit_io`, the completion iterator and the two handles: as functions in which a panic is a result, and as classes that refine those functions |
| `Kernel`, `Spec`, `Simulation` | the kernel's side of the ring, the reactor as a user may think of it (operations with numbers that are never reused), and the simulation between code and specification |
| `ReactorTheorems`, `Streams`, `Submissions`, `Events` | what the simulation means over whole runs: refinement, slot ownership, clean-up, streams, stable results, room in the submission queue, semaphore accounting |
| `World`, `WorldProofs`, `WorldTheorems`, `Outcomes`, `Progress`, `LoopReturns`, `Orphan` | executor, reactor and kernel composed: no lost wakeup, stale keys, conservation of tasks, fairness, bounded work, when the loop can return and when it panics |
| `PrivateEvent`, `Joiner`, `JoinerTheorems` | an event that only its owner uses; spawned tasks, joiners and `block_on` |
| `Mutex`, `MutexProofs`, `MutexTheorems`, `LostLocks`, `LostRun` | the async mutex: one token carried through kernel, result slot and guard, and exactly when it is lost |
| `ExecutorCode`, `EventCode`, `JoinerCode`, `MutexCode` | executor, events, joiners and mutex as classes with the source's fields and loops, each method tied to the machine above |

The machine `World` has the acts of a task (create, poll or drop a handle, spawn, suspend, finish),
of the executor loop, of the kernel (post a completion) and of other threads (notify an event, take a
unit). `CanAct` says which may come next; `Step` does what the code does and can end in a panic.
Most lemmas take any state in which the invariant `Inv` (or `Sim`, `MInv`, `JInv`) holds; `RunInv`,
`MStepInv` and `JoinNeverBlocks` show that these are kept by every act, and `StartInv`, `New` and
`SpawnJoiner` that they hold at the start.

## What is relied on from outside

- The kernel completes a oneshot operation exactly once, and a multishot operation with any number of
  completions that announce more and then one that does not. A completion carries the `user_data` of its
  submission. A read of an eventfd in semaphore mode succeeds only by taking one unit.
- A cancellation through `register_sync_cancel` leads to that last completion. Whether the call succeeds is a
  parameter of the drop; a refused one is one of the two panics that the reactor can reach.
- The submission queue has 1024 entries, emptied by `submit_and_wait`. Overfilling it is the other
  panic; nothing forbids it.
- Wakers are called only by `Reactor::react`. A handle is polled only by the task that submitted it, since
  later polls do not replace the waker. A task suspends only when a handle that it still has answered
  `Pending`. A future is not polled again after `Ready`, and `block_on` is not nested.

## Where the code and its documentation differ

- The executor loop looks at both queues at the end of an iteration (src/task.rs:290), not at its start
  (README.md:118-120). It can return exactly if it is entered with a task queued or waiting
  (`LoopReturns.ReturnsExactly`). Entered without one no run returns (`NeverReturns`), and right after start-up
  nothing at all happens any more (`SleepsAtStartUp`).
- `pending` entries of multishot operations are never removed (src/reactor/uring.rs:130-136).
  `StoresDrain` counts them.

## Properties that do not always hold

- The executor loop can pop an empty run queue (src/task.rs:271), when `react` returns and wakes nobody.
  `Progress.PopsNothingExactly` says when: every completion in the queue is a late one, for a task that has
  finished, and no other task waits at that task's old key. `Progress.NeverPopsEmpty` shows that it cannot happen
  if no task finishes while an operation that it submitted is in flight (`Tidy`). Two runs from start-up in
  `Orphan` break this: in `OrphanPanics` the task drops the handle, in `LeftBehindPanics` nothing is dropped and
  the handle lives on outside the task, say in a shared `Rc`.
- The mutex's token is conserved, but it can end up with nobody. By `LostLocks.LostExactly` this is so exactly if
  a lock future was dropped before it returned and its read has succeeded, before the drop or after it, with
  the lock free or held at the time. `LostRun.LockIsLost` is a run from start-up. By `LostForever` no run
  acquires the lock again.
- A thread can sleep in `submit_and_wait` for ever although tasks wait, if the kernel has nothing to complete,
  for example when an event is never notified. Every waiting task then has an operation of its own in flight
  (`Starved`, in `ExecutorCode`).

## Model

| member | source | states |
|---|---|---|
| `Slabs.Slab.Insert` | src/reactor/uring/result.rs:56-58 | an insertion uses a vacant key, the one freed last if there is one, and changes no other entry |
| `Slabs.Slab.TryRemove` | src/task.rs:120 | removal gives the entry and frees its key; a vacant or unknown key is left alone |
| `Slabs.FreeKey` | src/reactor/uring/result.rs:26 | the free list stays well formed when an occupied key is freed, and only that key goes |
| `Slabs.FillHead` | src/task.rs:282-286 | the free list stays well formed when its head is filled, and the head was vacant |
| `ReactorCode.OneshotStore.SetResult` | src/reactor/uring/result.rs:22-30 | a result is stored, or its slot freed if the handle is gone; no other slot changes |
| `ReactorCode.OneshotStore.GetResult` | src/reactor/uring/result.rs:32-44 | a stored result is handed out once and its slot freed; an unset slot stays |
| `ReactorCode.OneshotStore.DropResult` | src/reactor/uring/result.rs:46-54 | a slot with a result is freed, any other is marked dropped |
| `ReactorCode.OneshotStore.CreateSlot` | src/reactor/uring/result.rs:56-58 | a slot nobody uses becomes unset |
| `ReactorCode.MultishotStore.PushResult` | src/reactor/uring/result.rs:85-87 | the slot's buffer is the last 1024 of what was in it and the new result; no other slot changes |
| `ReactorCode.MultishotStore.PopResult` | src/reactor/uring/result.rs:89-102 | the oldest result is taken; without one the answer tells finished from pending |
| `ReactorCode.MultishotStore.DropResult` | src/reactor/uring/result.rs:104-110 | a finished slot is freed, any other is marked dropped |
| `ReactorCode.MultishotStore.SetFinished` | src/reactor/uring/result.rs:120-126 | a dropped slot is freed, any other is marked finished |
| `ReactorCode.ReactorInner.SubmitIo` | src/reactor/uring.rs:81-101 | with fewer than 1024 entries in the queue, a submission takes unused keys in both slabs and one place in the queue |
| `ReactorCode.ReactorInner.Next` | src/reactor/uring.rs:109-141 | one completion reaches the slot its pending entry names, and the entry's waker is returned |
| `ReactorCode.OneshotUringIo.SubmitOrGetResult` | src/reactor/uring/io/oneshot.rs:39-64 | the handle and the shared ring change together as `SubmitOrGetOneshot` says; the answer is the handle's state |
| `ReactorCode.OneshotUringIo.Drop` | src/reactor/uring/io/oneshot.rs:67-75 | only a submitted handle touches its slot |
| `ReactorCode.MultishotUringIo.SubmitOrGetResult` | src/reactor/uring/io/multishot.rs:28-51 | the same for streams, whose handle never leaves the submitted state |
| `ReactorCode.MultishotUringIo.Drop` | src/reactor/uring/io/multishot.rs:54-67 | after an accepted cancellation the slot is freed or marked |
| `Simulation.StepSimulates` | src/reactor/uring.rs:81-140 | every act on the reactor keeps the simulation with unique operation numbers, shows the same, and panics exactly on a full queue or a refused cancellation |
| `Submissions.SubmissionPanicsExactly` | src/reactor/uring.rs:75-98 | after any run of the reactor from start-up, a first poll panics exactly if 1024 operations were submitted since the last flush |
| `Submissions.BurstFits` | src/reactor/uring.rs:93-98 | submissions in a row, of handles of either kind, right after a flush fit in exactly if there are at most 1024 |
| `Submissions.FirstPollPanicsExactly` | src/reactor/uring.rs:32-35 | after any run of the runtime from start-up, a first poll by a task panics exactly if 1024 operations were submitted since the last act that went through `react` |
| `ReactorTheorems.RefinesUniqueIds` | src/reactor/uring.rs:81-140 | every run from start-up shows its user what the specification without slots and keys shows, and panics exactly in the two cases |
| `ReactorTheorems.RunSimulates` | src/reactor/uring.rs:112-140 | the same from any state of the simulation, which still holds at the end |
| `ReactorTheorems.OneshotOwnership` | src/reactor/uring/result.rs:22-54 | a live oneshot slot has exactly one handle or is marked dropped, and exactly the slots without a result have a pending entry, exactly one |
| `ReactorTheorems.MultishotOwnership` | src/reactor/uring/result.rs:85-126 | the same for multishot slots: each unfinished one has a pending entry of its own |
| `ReactorTheorems.StoresDrain` | src/reactor/uring.rs:198 | when nothing is in flight and no handle waits, both stores are empty and `pending` has one entry per multishot operation ever submitted |
| `ReactorTheorems.DropCommutesWithReap` | src/reactor/uring/result.rs:22-54 | dropping a handle and processing a completion give the same ring, the same wake and no panic in either order |
| `ReactorTheorems.CodeDetermined` | src/reactor/uring.rs:53-57 | slabs and handles are determined by the specification's state and the owner maps: nothing is left over or missing |
| `Streams.SubmitOnce` | README.md:153-168 | over any run a handle moves from new to submitted to finished and never back, and its result is the first for its own operation |
| `Streams.ClosureRunsOnce` | src/reactor/uring/io/oneshot.rs:39-64 | in any run of the code the closure of a handle runs once if the run submits it, otherwise never |
| `Streams.FinishedStays` | src/reactor/uring/io/oneshot.rs:60-63 | once finished, every later poll returns the same result and submits nothing |
| `Streams.OwnResult` | src/reactor/uring/io/oneshot.rs:52-59 | what a oneshot handle yields after any run is the one result the kernel posted for that handle's operation |
| `Streams.StreamFidelity` | src/reactor/uring/io/multishot.rs:40-49 | over any run the buffer is a suffix, of length at most 1024, of the processed results; what the polls returned lies before it, in order; returned, buffered and as many as met a buffer of 1024 make up everything processed |
| `Streams.OldestIsLost` | src/reactor/uring/result.rs:85-87 | a completion joins the end of its stream's buffer, and costs the oldest entry exactly if 1024 wait there; other streams are left alone |
| `Streams.EndOfStream` | src/reactor/uring/result.rs:89-102 | a poll says end of stream exactly when the final completion was processed and everything buffered was taken; the kernel then has nothing more to post |
| `Streams.EndStays` | src/reactor/uring/result.rs:95-99 | after the end of a stream every poll of its handle says so, in every run that keeps the handle |
| `Events.StepFds` | src/futures/event.rs:128-150 | notifications sent are in the counter, with a completed read or with another thread, after every act |
| `Events.WaitsNeverExceedNotifications` | src/futures/event.rs:176-196 | successful waits are at most the reads that took a unit, and these at most the notifications |
| `Events.NotificationsSuffice` | src/futures/event.rs:128-150 | once the kernel has settled, the reads that took a unit are as many as the notifications left over by other threads or the waits that did not fail, whichever is less, and with enough notifications they are exactly those waits |
| `WorldProofs.StepInv` | src/task.rs:265-294 | every act of runtime, kernel or other thread keeps the global invariant, and panics exactly on a full queue, a refused cancellation, or a `react` none of whose completions finds an occupied key |
| `WorldTheorems.RunInv` | src/task.rs:265-294 | the same for every run |
| `WorldProofs.InvReapWake` | src/reactor/mod.rs:25-31 | one completion never panics, wakes the task of its own operation and keeps the invariant |
| `WorldTheorems.NoLostWakeup` | src/task.rs:116-125 | a waiting task is stored at the key in its `TaskId`, and a completion in flight or in the queue has a pending entry that carries its waker |
| `WorldTheorems.SomethingComes` | src/task.rs:267-269 | while a task waits, `submit_and_wait` has something to return or the kernel an operation to complete |
| `WorldTheorems.WakeMoves` | src/task.rs:117-124 | a wake of a live task moves exactly that task or nothing, one through a finished task's old key at most one other task; no task is lost, duplicated or misfiled |
| `WorldTheorems.ReactWakesExactly` | src/reactor/mod.rs:25-31 | if no completion is for a finished task, `react` queues exactly the tasks that the completions are for |
| `WorldTheorems.LoopReturnsWhenAllFinished` | src/task.rs:290-292 | the act that ends the loop leaves every task ever spawned finished |
| `WorldTheorems.RoundFairness` | src/task.rs:265-294 | between two reacts no task is polled twice, and when the queue has run empty every task that was queued or spawned has been polled |
| `Outcomes.FinishedByReady` | src/task.rs:277-288 | in every run the tasks that finish are exactly those whose poll was ready, and no task is polled after it was ready |
| `Outcomes.EndsReady` | src/task.rs:277-292 | when all tasks have finished, the last poll of each was ready |
| `Progress.BoundedWork` | src/task.rs:265-294 | in every run from start-up, polls never exceed spawns plus completions posted; with oneshot operations only, polls, queued tasks and open operations together never exceed spawns plus submissions |
| `Progress.OrphansStep` | src/reactor/uring/io/oneshot.rs:67-75 | if no task finishes while an operation that it submitted is in flight, the task of every open operation is alive, whether its handle was dropped or not |
| `Progress.FindsTask` | src/task.rs:266-271 | if the task of every open operation is alive, an iteration that may start finds a task to pop |
| `Progress.PopsNothingExactly` | src/task.rs:266-271 | an iteration pops an empty queue exactly if the queue is empty and every waiting completion is for a finished task at whose old key nobody waits |
| `Progress.NeverPopsEmpty` | src/task.rs:266-271 | if no task finishes while an operation that it submitted is in flight, no run pops an empty queue: it can only panic on a full queue or a refused cancellation |
| `LoopReturns.ReturnsExactly` | src/task.rs:265-294 | the loop can return exactly if it is entered with a task queued or waiting |
| `LoopReturns.CanStillReturn` | src/task.rs:265-294 | from every reachable state at the head of the loop with a task left, some run returns |
| `LoopReturns.NeverReturns` | src/task.rs:266-271 | entered without a task, no run returns; with nothing in flight no run even ends the first `react` |
| `LoopReturns.SleepsAtStartUp` | src/task.rs:261-263 | right after start-up, nothing can happen in a loop entered without a task |
| `Orphan.OrphanPanics` | src/task.rs:271 | a run from start-up in which a task drops a handle in flight and finishes, and whose next iteration pops an empty queue while another task waits |
| `Orphan.LeftBehindPanics` | src/task.rs:271 | the same without any drop: the handle outlives its task |
| `PrivateEvent.AvoidsAct` | src/futures/event.rs:89-91 | an event that only its owner uses, and the owner's handles, are left alone by every other act of the runtime |
| `PrivateEvent.OwnPoll` | src/futures/event.rs:179-195 | what polling a waiter tells its owner: it submits one read of the event, stays pending, or takes that read's result |
| `MutexTheorems.New` | src/futures/mutex.rs:98-106 | a new mutex starts with one unit and satisfies the invariant |
| `MutexTheorems.MStepInv` | src/futures/mutex.rs:113-138 | every act keeps token and log, and panics exactly where the runtime does or where a lock's read has failed |
| `MutexTheorems.PollLockGives` | src/futures/mutex.rs:113-117 | a lock future stays pending until its read has completed; then its next poll returns the only guard, or panics if the read failed |
| `MutexTheorems.MutualExclusion` | src/futures/mutex.rs:113-138 | counter, reads that took the unit and are not yet guards, units on their way to another thread, and guards are together always exactly one |
| `MutexTheorems.SectionsSerialise` | src/futures/mutex.rs:120-132 | after any run the value is what the critical sections make of it one after the other, in the order of acquisition |
| `MutexTheorems.TokenHasFuture` | src/futures/mutex.rs:113-117 | a read that took the unit and is not yet a guard belongs to a lock future that is still there, exactly if its lock future was not dropped |
| `MutexTheorems.LockProgress` | src/futures/mutex.rs:113-117 | with no guard and a lock future in flight, the kernel can complete it, or the unit is on its way to a lock future of this or another thread, or it is lost |
| `LostLocks.LostExactly` | src/futures/mutex.rs:113-117 | in every reachable state the token is lost with a read exactly if the read's lock future was dropped and the read has taken a unit |
| `LostLocks.DroppedWhileFree` | src/futures/mutex.rs:115 | dropping a lock future in flight and then completing its read loses the token, when the lock is free |
| `LostLocks.DroppedWhileHeld` | src/futures/mutex.rs:115 | the same while somebody holds the lock: the unit is lost as soon as the guard gives it back |
| `LostLocks.DroppedWhenTaken` | src/futures/mutex.rs:115 | the same when the read has already succeeded: the drop itself loses the token |
| `LostRun.LockIsLost` | src/futures/mutex.rs:98-117 | a run from start-up, through `new` and a first poll of `lock`, that ends with the token lost |
| `LostLocks.LostForever` | src/futures/mutex.rs:113-117 | once the token is lost no run acquires the lock, on any thread |
| `JoinerTheorems.SpawnJoiner` | src/task.rs:193-227 | spawning queues the child with a fresh event, an empty channel and a waiter that is not submitted |
| `JoinerTheorems.ReadyMeansReturned` | src/task.rs:202-206 | a read of the child's event succeeds only after the child's future has returned |
| `JoinerTheorems.JoinNeverBlocks` | src/task.rs:178-182 | no poll of a joiner and no send ever sleeps in the channel, although the kernel may act between notify and send; a synchronous join sleeps exactly if the child has not finished |
| `JoinerTheorems.JoinerDelivers` | src/task.rs:175-183 | in any run, what a joiner receives is the one value that the child's future returned |
| `JoinerTheorems.BlockOn` | src/task.rs:241-251 | however the executor loop runs, when it returns `join` returns f's output |
| `JoinerTheorems.JoinProgress` | src/task.rs:202-206 | once the child has finished, the kernel can complete the joiner's wait |
| `ExecutorCode.Executor.Wake` | src/task.rs:116-125 | waking through the shared key is `Wake` on run queue and waiting slab |
| `ExecutorCode.Executor.Spawn` | src/task.rs:208-215 | the task is queued last, with 0 as the key in its id |
| `ExecutorCode.Executor.ReapEach` | src/reactor/mod.rs:25-31 | the loop over completions empties the queue, and slabs, slots, pending entries and run queue end as the machine's `ReapAll` says; no `unwrap` in it fails |
| `ExecutorCode.Executor.React` | src/reactor/uring.rs:32-50 | `react` waits for the kernel once; it returns with every completion in the queue processed as the machine does it and an empty submission queue, or sleeps if the kernel brought none, with nothing changed; it always sleeps if nothing is in flight |
| `ExecutorCode.Executor.Head` | src/task.rs:266-271 | an iteration starts to poll the task that is last in the queue, as it was or as `react` left it; or it sleeps, with an operation in flight for every waiting task; or it pops nothing, only if a task finished with an operation in flight; without any task it never gets to a poll |
| `ExecutorCode.Executor.Tail` | src/task.rs:277-292 | a ready task is finished and nothing else changes, a pending one is in the slab at the key in its id; the loop ends exactly when both queues are empty |
| `ExecutorCode.Executor.Park` | src/task.rs:279-287 | a pending task goes into the slab at a vacant key, and its `TaskId` gets that key |
| `ExecutorCode.Executor.ExecutorLoop` | src/task.rs:265-294 | whatever futures and kernel do: there is one answer of a future per iteration, the tasks that finish are exactly those that answered ready, and the others were parked; it returns only with every task finished, the last answer of each ready, and both queues empty; pops an empty queue only if a task finished with an operation in flight; sleeps for ever only after the kernel brought nothing, with an operation in flight for every waiting task, and with none in flight only if entered without tasks; entered without tasks it sleeps or pops nothing; with oneshot operations it goes on for at most spawns plus submissions iterations |
| `ExecutorCode.Executor.Turn` | src/task.rs:266-292 | one iteration asks one future at most, and ends its task's poll as the future answered |
| `EventCode.Event.NotifyOne` | src/futures/event.rs:128-150 | counter and notifications sent grow by one, no other eventfd, operation or completion changes, the accounting holds, and every read of the event in flight can now succeed |
| `EventCode.Event.Wait` | src/futures/event.rs:159-165 | a waiter of its own on the same eventfd, not submitted |
| `EventCode.EventWaiter.Poll` | src/futures/event.rs:176-196 | the first poll submits a read of this eventfd, later ones look for its result |
| `MutexCode.Mutex.New` | src/futures/mutex.rs:98-106 | the objects of a new mutex are in a state that satisfies the mutex invariant |
| `MutexCode.Mutex.Lock` | src/futures/mutex.rs:113-115 | a lock future starts with a waiter on this mutex's event that is not submitted, and the invariant holds with it |
| `MutexCode.Mutex.LockOnce` | src/futures/mutex.rs:113-117 | the first poll of a new lock future adds exactly one operation to the kernel, a read of this mutex's eventfd, and stays pending |
| `MutexCode.Mutex.PollLock` | src/futures/mutex.rs:113-117 | polling `lock` is the machine's act: it gives a guard exactly when the machine grants one, and panics exactly on a failed read |
| `MutexCode.LockGuard.DerefMut` | src/futures/mutex.rs:128-132 | a change through the guard changes the value and is recorded in the guard's section |
| `MutexCode.LockGuard.Drop` | src/futures/mutex.rs:134-138 | dropping the guard makes the counter one and leaves no guard |
| `JoinerCode.Channel.Send` | src/task.rs:205 | the value joins the channel while the receiver is there, and is dropped otherwise; the thread sleeps exactly if a receiver is there and the channel is full |
| `JoinerCode.Channel.Recv` | src/task.rs:181 | the oldest value if there is one; otherwise the thread sleeps exactly if the sender lives |
| `JoinerCode.TaskJoiner.Spawn` | src/task.rs:198-226 | the joiner's objects, on a new event with an empty counter, satisfy the joiner invariant with nothing submitted |
| `JoinerCode.TaskJoiner.Poll` | src/task.rs:178-182 | a ready joiner returns the machine's value, and its `recv` never meets an empty channel |
| `JoinerCode.TaskJoiner.Join` | src/task.rs:170-172 | joining returns the child's value and releases the waiter exactly if the child has finished, and sleeps otherwise |
| `JoinerCode.Wrapper.NotifyAndSend` | src/task.rs:202-206 | the child's last statements notify once and send into a channel that has room, so they never sleep |

## Left out

- ExecutorCode.Executor.ExecutorLoop: watches a given number of iterations, since the source's loop need not end; its
  `PollFuture` and `Await` stand for code that is not modelled, the futures and the kernel, and the loop uses
  nothing of them but their contracts. Their bodies are one example each.
- JoinerCode.Wrapper.NotifyAndSend: the `Result` of the child's `notify_one`, which the source ignores, is taken to be a success.
- Tasks, wakers and handles of the executor are named by numbers; a waker is the number of its task, whose
  key `ids` holds for task and wakers together as the `Arc<TaskId>` does.
- Contents of submission entries, buffers and their lifetimes, raw pointers and `transmute`.
- `reactor_value_to_result`: results are passed on as the kernel's number, negative for an error.
- `src/futures/tcp.rs`, `udp.rs`, `fs.rs`, `read.rs`, `write.rs`, `timer.rs` and `sock_addr.rs`: each is one
  operation on a handle, covered by the operations with target `Other`.
- Failing system calls other than a refused cancellation and failed operations: `eventfd`, `write`, `dup`
  and `io_uring_enter` are taken to succeed, and the counter not to reach its maximum.
- Closing an eventfd, and the reuse of its number.
- OS threads: another thread is seen only through what it does to an eventfd. The mutex's use by other
  threads are the acts `TakeElsewhere`, `LockElsewhere`, `Modify` and `Unlock`. A unit taken there is counted in
  `afar` until a guard is made of it; whether a lock future of another thread still lives is not tracked, so a token
  lost on another thread stays in `afar`.
- The `slab`, `ringbuffer` and `mpsc` crates beyond what is used here.
- Starvation: between two reacts every queued task is polled, but nothing bounds the number of tasks that
  a round may spawn, and lock futures are served in the kernel's order.
