# GeekOS, verified

A Dafny model of the parts of the GeekOS kernel in which a mistake is easiest to make and hardest to
find: its heap, its threads with everything that switches, queues, blocks and wakes them, its path
lookup with shared reference counts, its block pager, and two smaller pieces, Peterson's protocol and
the boot page tables.

`dafny verify dfyconfig.toml` checks everything.

## What is modelled, and how

**The heap** (`Memory`, `HeapLayout`, `Heap`). Memory is an array of bytes; size and link words of `W`
bytes lie inside the chunks, `W` being any positive number. `Heap.Allocator` has the variables of
malloc.c and its methods follow malloc.c store by store. What the bytes mean is a `HeapLayout.Layout`: a
map from chunk addresses to sizes, the set of free chunks, and the break. The methods are proved to do
what the transitions of `HeapLayout` say, and to leave every other live payload alone; the theorems
about runs are about those transitions.

**Thread queues** (`SchedulingOrder`, `ThreadQueues`). The doubly linked lists of list.h through the
threads themselves, and the priority insertion, wake-up and merge of thread.c on them, as methods that
refine operations on sequences. `SchedulingOrder` proves what these operations amount to: a stable sort.

**The kernel as a step machine** (`KernelSteps` and the modules named `Kernel...`). One step executes
one statement of the current thread, or delivers a timer or keyboard interrupt, which may happen between
any two statements while interrupts are enabled. A context switch is: the current thread changes, and
with it the saved interrupt flag. Statements of one thread that touch nothing others could see in
between, with interrupts off, are one step (all of `thread_wait`, for one). The places in the code are
the constructors of `Pc`; a failed KASSERT is the outcome `Panic`, but for that of list.h, which
`KernelAsserts` is about, and those of thread.c 265, 317 and 345, on stack pointers and on the queue
that a loop has just emptied. Interrupt handlers run with interrupts disabled, whatever the flag of the
thread they interrupt, which is the flag in the state. What is kept for the proofs only (the place of a
thread, the mutexes it is between lock and unlock of, ticks waited, the log of work) is written but
never read by a step. A reachable state is one that any sequence of events leads to from the state in
which preemption has just been turned on. `KernelCalls` and `KernelReturns` say what a call has done
when it returns, in any run; `KernelWakeups` and `KernelTicks` what wake-ups, switches and ticks amount
to. The table under "Steps and the code they follow" says which function follows which lines.

**Work** (`WorkQueues`). The linked list of workqueue.c, as a class.

**Path lookup** (`PathTokenizer`, `InodeLists`, `VfsTree`, `Vfs`, `VfsInvariant`, `VfsRuns`,
`VfsLookups`, `VfsLoops`). The tokenizer works in place on a string and a name buffer.
`VfsTree.FileTree` has the loops over ancestors and children. `Vfs` is a step machine of any number of
calls of `vfs_lookup_inode` and `vfs_release_ref`, which share the tree, `s_fs_mutex` and the busy
flags, and lose the mutex while the file system driver works and while they sleep on a condition (vfs.c
229-289, 392-494). The driver answers with an error, with a new inode below the directory asked, or with
one below it that it has made before. `InodeLists` is the child list as the linked list it is,
`VfsLookups` says what a lookup does and returns over a whole run, and `VfsLoops` is about searches that
do not end.

**Blocks** (`BlockRanges`, `Ramdisks`). The 32-bit arithmetic of range.c, lba.c and blockdev_pager.c,
wrap-around included, and a pager connected straight to the request handler of a ramdisk.

**Peterson's protocol** (`Peterson`) with one memory access a step, and **the boot page tables**
(`PageTables`), filled by the loops of x86_vm.c and read by an address translation that follows section
4.3 of volume 3A of the Intel 64 and IA-32 Architectures Software Developer's Manual.

## Where the code does not do what it is meant to

Each of these has a lemma at an input and a lemma that says exactly when the code is right.

- `thread_wakeup_one` treats an empty queue as nobody to wake (thread.c 511-515), but the `remove_first`
  it calls asserts that the queue is not empty (list.h 153). So the kernel halts when a condition is
  signalled that nobody waits on (`KernelInputs.SignalHalts`), and when the last reference to a thread
  is given up while neither the workqueue thread nor a reader of the keyboard waits for events
  (`KernelInputs.ExitHalts`); and at no other KASSERT (`KernelAsserts.PanicsExactly`). The machine of
  `KernelSteps` takes the first reading, in which `head` and `tail` are both 0 and 0 is returned; as the
  kernel with the assertion does the same until it halts (`KernelAsserts.AssertedIsReachable`), what is
  proved of the one holds of the other.
- `thread_create` queues the thread with priority 0 and then sets the priority (thread.c 266-270), so it
  can leave a queue ordered by priority unsorted (`KernelInputs.CreateDisorders`,
  `KernelOrder.CreateOrderedExactly`). The shipped code calls it only at boot, under FCFS, where it does
  no harm; jobs are made by `thread_create_from_job`.
- `vfs_lookup_child` compares the name asked for with the name of the directory (vfs.c 242), so that it
  finds the first child in memory or none (`VfsTree.SearchWrong`, `VfsTree.SearchRight`). No claim is
  made that the inode a lookup returns bears the name.
- `vfs_lookup_child` appends what the driver answers with to the child list without asking whether it is
  there (vfs.c 252-254); and as the search misses inodes in memory, the driver is asked for them again.
  If it answers with the one that is last in the list, that becomes its own successor, and the next
  search that looks beyond the first child never ends, with `s_fs_mutex` held: three lookups of one file
  do (`VfsLoops.ThirdLookupSpins`, `VfsLoops.NeverEnds`). Otherwise every search ends
  (`VfsLoops.LoopedExactly`, `VfsLoops.SearchesEnd`). If it answers with one further ahead, those behind
  it are lost from the list (`InodeLists.InodeList.Append`).
- A pager given a page number far beyond its blocks need not notice: the 32-bit product wraps around
  (`BlockRanges.PageNumberWraps`, `BlockRanges.BeyondRefused`).
- The boot page tables map as much as there is above the first M, rounded up to 4M, and not that M more
  (x86_vm.c 134, x86_mem.c 43): with 65M, say, the last is not mapped (`PageTables.TopUnmapped`,
  `PageTables.AllMemoryMapped`). With 4G or more the size in bytes wraps around
  (`PageTables.LimitWraps`, `PageTables.LimitRight`).
- A page that begins within the pager's blocks is refused when the end it would have, were it not cut
  off at the end of the pager, has no 32-bit number (`BlockRanges.LastPageRefused`,
  `BlockRanges.PageRangeExact`).
- The statistics of a job created at tick 0 fail a KASSERT in `wait_for_children`
  (`KernelInputs.JobAtTickZero`, `KernelInputs.NeverStatistics`); all three exist if and only if it was
  created later, was charged a tick, and noted one as its response (`KernelSafety.JobStatisticsExist`).
  When they exist they are right, even if the clock has wrapped around (`KernelTimes.StatisticsMean`).
  The join of the step machine is `thread_join`, which does not calculate them.
- Under RR a thread other than idle gets no more ticks in a row than its quantum and one
  (`KernelTurns.ConsecutiveTicks`); idle may get more. A tick that ends a slice leaves the same thread
  running if and only if nobody else is ready, and then it is idle (`KernelTurns.ExpiredTickExactly`).

And of note:

- `thread_wait` never sets THREAD_WAITING: a blocked thread stays THREAD_RUNNING
  (`KernelSafety.BlockedStaysRunning`).
- The workqueue thread and readers of the keyboard share one wait queue (keyboard.c 42), and scheduling
  work wakes one thread of it, which may be a reader.

## Model

| member | source | states |
|---|---|---|
| HeapLayout.RunKeeps | src/kernel/malloc.c:65-254 | after any sequence of mallocs and valid frees the chunks tile the used heap, no two free chunks touch, and what the callers hold is live, disjoint and at least as long as asked |
| HeapLayout.AllReturned | src/kernel/malloc.c:193-254 | a run at whose end everything has been returned, in whatever order, ends with one free chunk spanning the used heap |
| HeapLayout.FreeUndoesMalloc | src/kernel/malloc.c:88-156 | free after a malloc served from the free list (exactly, by a whole chunk, or by a split) restores the heap chunk for chunk |
| HeapLayout.MallocGrants | src/kernel/malloc.c:73-190 | malloc takes room for a link at least, and less than another header and link more than asked; it gives 0 exactly when neither a free chunk nor the rest of the heap holds that, however much; otherwise a chunk that was not live, and the break moves only if no free chunk fits |
| HeapLayout.MallocPlaces | src/kernel/malloc.c:88-185 | it takes it from the smallest free chunk that has it, the lowest on a tie: all of it, or that many bytes at its top, if a chunk remains; else at the break |
| HeapLayout.EveryByteInOneChunk | src/kernel/malloc.c:158-185 | every byte below the break belongs to exactly one chunk |
| HeapLayout.BestFitExists | src/kernel/malloc.c:88-106 | whenever some free chunk fits there is a smallest, lowest one |
| HeapLayout.ServeKeeps | src/kernel/malloc.c:117-156 | serving a request from a free chunk keeps the heap well formed and makes exactly one more chunk live, of at least the size asked |
| HeapLayout.ExtendKeeps | src/kernel/malloc.c:168-185 | taking a chunk from the break keeps the heap well formed |
| HeapLayout.ReleaseKeeps | src/kernel/malloc.c:222-253 | returning a chunk, merged with the free chunks above and below that it touches, keeps the heap well formed and leaves other live chunks alone |
| HeapLayout.MergeUpKeeps | src/kernel/malloc.c:227-233 | swallowing the free chunk above leaves no free chunk touching from above |
| HeapLayout.MergeDownKeeps | src/kernel/malloc.c:247-253 | being swallowed by the free chunk below restores that no two free chunks touch |
| Heap.Allocator.Malloc | src/kernel/malloc.c:65-191 | the method on raw memory makes the transition HeapLayout.Malloc and keeps every live payload byte for byte |
| Heap.Allocator.MallocFromLarger | src/kernel/malloc.c:117-156 | step 2: the first chunk of the smallest larger size is the best fit, and is used whole or split from the top |
| Heap.Allocator.MallocFromBreak | src/kernel/malloc.c:168-190 | steps 3 and 4: the break moves if the rest of the heap holds the chunk; both tests together do not wrap |
| Heap.Allocator.SplitTop | src/kernel/malloc.c:147-153 | the two header stores encode the two parts of the split chunk |
| Heap.Allocator.Unlink | src/kernel/malloc.c:96-99 | disconnecting a chunk leaves a list of all other free chunks |
| Heap.Allocator.Seek | src/kernel/malloc.c:222-226 | the search stops between the two free chunks that surround the one returned |
| Heap.Allocator.Free | src/kernel/malloc.c:193-254 | the method on raw memory makes the transition HeapLayout.Release, or none for 0, and keeps every other live payload |
| Heap.EncodingAvoidsPayloads | src/kernel/malloc.c:40-43 | whatever callers write into live payloads, the bytes still encode the same heap |
| Heap.FreedRepresents | src/kernel/malloc.c:227-253 | the stores of free encode the released heap, in all four cases of merging |
| Heap.SearchStep | src/kernel/malloc.c:88-106 | what the first search knows at each chunk: an exact match is the best fit, otherwise the smallest larger size so far |
| SchedulingOrder.EnqueueAllIsStable | src/60-330/kernel/thread.c:53-85 | under SJF and PRIORITY, queueing threads one by one onto a sorted queue gives the stable sort of queue and threads |
| SchedulingOrder.EnqueueAllAppends | src/60-330/scheduler.c:11-32 | under FCFS and RR it gives plain concatenation |
| SchedulingOrder.StableSortUnique | src/60-330/kernel/thread.c:53-85 | there is only one stable sort, so that the result is determined |
| SchedulingOrder.MergeOfCreatedJobs | src/60-330/kernel/thread.c:323-348 | creating jobs on the new queue and merging it gives the stable sort of run queue then jobs, or their concatenation |
| SchedulingOrder.MergeIsDirect | src/60-330/kernel/thread.c:335-348 | merging the ordered new queue gives what queueing the jobs directly would give |
| SchedulingOrder.InsertIsSorted | src/60-330/kernel/thread.c:53-85 | insertion by priority keeps a sorted queue sorted |
| SchedulingOrder.InsertIsStable | src/60-330/kernel/thread.c:53-85 | and puts the thread behind those of equal priority |
| ThreadQueues.ThreadQueue.Append | include/geekos/list.h:71-83 | appends, keeping all links of the doubly linked list right |
| ThreadQueues.ThreadQueue.RemoveFirst | include/geekos/list.h:148-163 | removes the first thread; the KASSERT fails exactly for an empty queue; links stay right |
| ThreadQueues.ThreadQueue.SeekFromTail | src/60-330/kernel/thread.c:75-79 | the walk from the tail follows no null link and stops at the thread to insert after, on any queue, sorted or not |
| ThreadQueues.ThreadQueue.InsertAtPriority | src/60-330/kernel/thread.c:53-85 | the thread goes to the position the sequence insertion says; links stay right in all four branches |
| ThreadQueues.ThreadQueue.Enqueue | src/60-330/scheduler.c:10-45 | the scheduler in force puts the thread where SchedulingOrder.Enqueue says |
| ThreadQueues.WakeupOne | src/60-330/kernel/thread.c:508-516 | the first waiting thread becomes ready and goes on the run queue, and nobody else changes state; on an empty queue, and on no other, the KASSERT of the list fails |
| ThreadQueues.Wakeup | src/60-330/kernel/thread.c:498-503 | all waiting threads become ready, queued one by one in waiting order; the KASSERT of the list never fails |
| ThreadQueues.MergeNewWithRunnable | src/60-330/kernel/thread.c:335-348 | the new queue ends empty, its threads queued one by one on the run queue |
| KernelAsserts.PanicsExactly | src/60-330/kernel/thread.c:468-614 | with the assertion of list.h in force, in any reachable state a KASSERT fails exactly when the next statement signals a condition nobody waits on, or gives up the last reference to a thread while nobody waits for events; no other KASSERT ever fails |
| KernelAsserts.AssertedNextKeeps | src/60-330/kernel/thread.c:404-614 | every statement and every interrupt but those keeps the invariant of flags, places, mutexes, wake-ups, references, work and ticks |
| KernelAsserts.AssertedRunsOn | src/60-330/kernel/thread.c:404-614 | in no interleaving of threads, timer ticks and keys does the kernel, with that assertion in force, halt but at those statements; from every state it gets into, every other event leads to another |
| KernelAsserts.AssertedNextIs | include/geekos/list.h:148-163 | with that assertion in force the kernel does what it does without, except to halt at those statements |
| KernelAsserts.AssertedIsReachable | include/geekos/list.h:148-163 | so every state it gets into is one the machine without the assertion gets into, and all that is proved of those holds of it |
| KernelInputs.SignalHalts | src/kernel/synch.c:176-182 | the kernel gets into a state in which cond_signal finds nobody waiting, and halts |
| KernelInputs.ExitHalts | src/60-330/kernel/thread.c:179-188 | the kernel gets into a state in which the last reference to an exiting thread is given up with nobody waiting for events, and halts |
| KernelSafety.MutualExclusion | src/kernel/synch.c:43-87 | at most one thread is between lock and unlock of a mutex |
| KernelSafety.LockedIffOwned | src/kernel/synch.c:55-73 | a mutex is locked exactly when it has an owner, who is the thread between lock and unlock of it; only the current thread between the two stores is an exception |
| KernelSafety.NotHeldAgain | src/kernel/synch.c:43-58 | a thread back from parking does not hold the mutex it locks next |
| KernelSafety.AloneInside | src/kernel/synch.c:106-125 | whoever has cleared g_preemption, or disabled interrupts other than to be switched away, is the thread that runs |
| KernelTurns.NoSwitchInside | src/x86/kernel/x86_int_asm.S:120-149 | while g_preemption is clear no statement and no interrupt switches threads |
| KernelSafety.NoWakeupLost | src/kernel/synch.c:64-87 | a free mutex with waiters always has a ready thread that will test it again or wake a waiter, barging notwithstanding |
| KernelWaits.CondWaitAtomic | src/kernel/synch.c:138-170 | from the store that frees the mutex until the thread is on the condition queue no other thread runs or takes a mutex |
| KernelWaits.NoAccidentalWakeup | src/60-330/kernel/thread.c:498-516 | a thread leaves a wait queue only by the unlock, signal, broadcast, exit, merge, key or work meant for that queue |
| KernelWaits.FirstComeFirstWoken | src/60-330/kernel/thread.c:468-516 | a step leaves a wait queue as it is, or the running thread joins its end, or the wake-up meant for it takes the first off it and nobody else, or a key empties the queue for events |
| KernelWaits.FirstIsWoken | src/60-330/kernel/thread.c:508-516 | the statement meant for a queue on which somebody waits takes the first off it and makes it ready on the run queue |
| KernelSafety.SomebodyRuns | src/60-330/kernel/thread.c:128-134 | the idle thread is always current or on the run queue, so that dispatch never meets an empty run queue |
| KernelSafety.ExactlyOnePlace | src/60-330/kernel/thread.c:468-516 | every thread that has not ended is current or on exactly one queue, exactly once; ended threads are on none |
| KernelSafety.StateTellsPlace | src/60-330/kernel/thread.c:324-348 | READY exactly on the run queue, NEW exactly on the new queue, EXITED exactly from the end of thread_exit on |
| KernelSafety.BlockedStaysRunning | src/60-330/kernel/thread.c:464-478 | RUNNING exactly when current and not exited, or blocked on a wait queue |
| KernelSafety.ReferencesCounted | src/60-330/kernel/thread.c:179-188 | the reference count is 1 until the thread exits, plus 1 until its parent has joined; it is 0 exactly when destruction has been scheduled |
| KernelSafety.DestroyedOnceInOrder | src/kernel/workqueue.c:44-108 | destruction is scheduled at most once per thread, done in the order scheduled, and only to threads that have ended, have been joined if attached, and are on no queue |
| KernelWaits.WorkHistoryGrows | src/kernel/workqueue.c:44-108 | no step forgets scheduled or finished work, so that over a run nothing is done twice; and no step changes when a job arrived |
| KernelSafety.JoinNeverMisses | src/60-330/kernel/thread.c:404-462 | a parent is on the queue of a child only while the child has still to wake it, and lets a child go only after it has ended |
| KernelSafety.TicksConserved | src/60-330/kernel/timer.c:39-46 | the ticks charged to all threads ever created add up to the ticks there were |
| KernelSafety.JobStatistics | src/60-330/stat.c:10-31 | for a job that has exited, arrival, running and waited ticks add up to termination; the wait, if it can be calculated, is the ticks it was alive but not current, and response is at most turnaround |
| KernelSafety.JobStatisticsExist | src/60-330/stat.c:10-23 | within 32 bits, the KASSERTs of the three calculations hold exactly if the job was created after the first tick and, for the wait, was charged a tick, for the response, noted one |
| KernelInputs.JobAtTickZero | src/60-330/kernel/thread.c:307-332 | the kernel gets into a state with a job that arrived at tick 0, and none of the three can be calculated for it |
| KernelInputs.NeverStatistics | src/60-330/stat.c:10-23 | nor can they later, in any run from there |
| KernelTimes.StatisticsMean | src/60-330/stat.c:10-31 | when they exist, the three results mean what they should in 32-bit arithmetic, also if the clock has wrapped around |
| KernelTurns.RoundRobinServes | src/60-330/scheduler.c:48-51 | under RR with quantum q a thread at position k of the run queue becomes current within (k+1)(q+1) ticks that find preemption enabled |
| KernelTurns.SlicesBounded | src/60-330/kernel/timer.c:39-58 | under RR with quantum q, if ticks find preemption enabled, the ticks counted since the last switch, be it to the same thread, never exceed q |
| KernelTurns.ConsecutiveTicks | src/60-330/kernel/timer.c:39-58 | under RR with quantum q, in any stretch of a run in which one thread other than idle is current in every state and ticks find preemption enabled, at most q ticks come, less those already counted in its slice |
| KernelTurns.ExpiredTickExactly | src/60-330/kernel/timer.c:39-58 | under RR with quantum q a preemptible tick in a slice of q ticks or more leaves the same thread running if and only if nobody else is ready, which is only so when idle runs; otherwise the first ready thread is next |
| KernelWakeups.TimerExactly | src/x86/kernel/x86_int_asm.S:120-149 | a tick takes the processor from a thread if and only if preemption is enabled and a switch has been asked for or, under RR alone, the slice exceeds the quantum; otherwise it changes nothing but clocks |
| KernelTicks.TickElsewhere | src/60-330/kernel/timer.c:39-58 | so under FCFS, SJF and PRIORITY a tick alone switches nobody and asks for no switch |
| KernelTicks.NotPreempted | src/60-330/kernel/timer.c:39-58 | in any run under these, without keys, a thread keeps the processor until it waits, yields or ends |
| KernelTicks.RequestExactly | src/x86/kernel/x86_int_asm.S:120-149 | a switch is still asked for after a step if and only if none could be made and it had been, or a printable key or an expired slice under RR asks for it |
| KernelTicks.FirstReadyFirstServed | src/60-330/scheduler.c:10-32 | under FCFS and RR nobody is overtaken on the run queue: in every step threads join its end and the first of it is served |
| KernelTicks.ClockExactly | src/60-330/kernel/timer.c:39-44 | the clock counts the ticks; scheduler and quantum are those last asked for |
| KernelTicks.RecordExactly | src/60-330/kernel/timer.c:43-46 | each tick is charged to the thread that runs and to no other; the first response is the tick at which the thread last noted it |
| KernelTurns.TickSlice | src/60-330/kernel/timer.c:39-58 | a preemptible tick in a slice of q ticks or more clears the slice and, unless idle was running, gives the processor to the first ready thread, which is another one |
| KernelTurns.TickSooner | src/x86/kernel/x86_int_asm.S:120-149 | each preemptible tick brings every ready thread nearer to its turn by at least one tick |
| KernelTurns.SliceNotCutShort | src/60-330/scheduler.c:48-51 | below the quantum, and unless a switch has been asked for, a tick leaves the current thread running |
| KernelOrder.MostUrgentNext | src/60-330/scheduler.c:29-45 | under SJF and PRIORITY every step that creates threads from jobs only keeps run queue and new queue in order of burst or priority, and switches, if it does, to a thread than which no ready one is more urgent |
| KernelOrder.MostUrgentAlways | src/60-330/scheduler.c:29-45 | the same along every run under SJF or PRIORITY, or changing between the two |
| KernelOrder.CreateOrderedExactly | src/60-330/kernel/thread.c:263-270 | after thread_create under SJF or PRIORITY the queues are in order if and only if no ready thread has a priority number between 0 and the default priority |
| KernelInputs.CreateDisorders | src/60-330/kernel/thread.c:263-270 | a reachable state, with one ready job of priority 50, in which thread_create puts the new thread of priority 100 before it |
| KernelOrder.CreateJobOrdered | src/60-330/kernel/thread.c:307-332 | under SJF a job goes on the new queue with its estimated burst as priority, under PRIORITY with its priority, and the queue stays in order |
| KernelOrder.InitiallyOrdered | src/60-330/kernel/thread.c:222-229 | the queues are in order when the kernel starts |
| KernelStores.LockTakeKeeps | src/kernel/synch.c:56-56 | marking the mutex locked keeps the invariant |
| KernelStores.LockOwnKeeps | src/kernel/synch.c:57-57 | so does noting the owner |
| KernelStores.UnlockStateKeeps | src/kernel/synch.c:66-72 | so does marking it unlocked, by the thread that holds it, as the KASSERTs demand |
| KernelStores.UnlockOwnerKeeps | src/kernel/synch.c:73-73 | so does clearing the owner |
| KernelWake.UnlockWakeKeeps | src/kernel/synch.c:82-86 | the wake-up in unlock finds a waiter, and hands the duty to test the mutex again to it |
| KernelSwitch.ParkWaitKeeps | src/60-330/kernel/thread.c:484-493 | waiting in thread_park succeeds and keeps the invariant |
| KernelWaits.ParkJoinsQueue | src/60-330/kernel/thread.c:484-493 | thread_park waits with preemption enabled and interrupts disabled, at the end of the queue of the mutex or condition |
| KernelWaits.WaitJoinsQueue | src/60-330/kernel/thread.c:468-478 | thread_wait puts the current thread at the end of the queue, to go on where it waits |
| KernelWakeups.MakeRunnableMeans | src/60-330/kernel/thread.c:594-603 | thread_make_runnable queues a thread as the scheduler in force does, where SchedulingOrder.Enqueue says, and makes it ready |
| KernelWakeups.WakeAllMeans | src/60-330/kernel/thread.c:498-516 | thread_wakeup wakes everybody on the queue: they are ready, queued one by one in waiting order, and nobody else is touched |
| KernelWakeups.WokenInOrder | src/60-330/scheduler.c:10-32 | under FCFS and RR they follow those who were ready, in waiting order |
| KernelWakeups.WokenByPriority | src/60-330/scheduler.c:29-45 | under SJF and PRIORITY the result is the stable sort of those who were ready and those woken |
| KernelWakeups.LoopWakesAll | src/60-330/kernel/thread.c:498-503 | a loop of broadcast, exit or merge is not interrupted, and when it is over everybody on the queue has been woken |
| KernelWakeups.LoopLeaves | src/60-330/kernel/thread.c:501-502 | a thread leaves such a loop only when nobody is left on the queue |
| KernelWakeups.KeyExactly | src/x86/kernel/x86_keyb.c:235-246 | a printable key wakes everybody who waits for events, and then lets the scheduler decide anew, or asks for that if preemption is disabled |
| KernelWakeups.KeyWakesEverybody | src/x86/kernel/x86_keyb.c:239-240 | after it nobody waits for events, and everybody who did is ready or has the processor |
| KernelCalls.LockReturns | src/kernel/synch.c:106-113 | in any run, mutex_lock returns with the mutex, locked and owned, which it has taken during the call |
| KernelReturns.UnlockReturns | src/kernel/synch.c:118-125 | mutex_unlock returns without the mutex, which it had |
| KernelReturns.CondWaitReturns | src/kernel/synch.c:138-170 | cond_wait returns with the mutex, having waited on the condition without it |
| KernelReturns.SignalReturns | src/kernel/synch.c:176-182 | cond_signal returns having woken the first waiter, if there was one |
| KernelReturns.BroadcastReturns | src/kernel/synch.c:188-194 | cond_broadcast returns having woken everybody who waited, in one go in which only the calling thread runs |
| KernelReturns.MergeReturns | src/60-330/kernel/thread.c:335-348 | the merge returns having made all new jobs ready, likewise |
| KernelReturns.YieldReturns | src/60-330/kernel/thread.c:552-559 | thread_yield returns having been queued where the scheduler says, and the first of the queue having got the processor |
| KernelReturns.JoinReturns | src/60-330/kernel/thread.c:441-462 | thread_join returns when the child has ended, having given up the reference to it |
| KernelReturns.ReadKeyReturns | src/kernel/keyboard.c:68-87 | wait_for_key returns having found a key |
| KernelReturns.ExitNeverReturns | src/60-330/kernel/thread.c:404-434 | thread_exit does not return |
| KernelReturns.WaitsForWork | src/kernel/workqueue.c:50-54 | the workqueue thread begins to wait only when there is no work |
| KernelSwitch.DispatchKeeps | src/60-330/kernel/thread.c:576-614 | a switch always finds a thread, the first of the run queue, restores its interrupt flag, and keeps the invariant |
| KernelSwitch.InterruptReturnKeeps | src/x86/kernel/x86_int_asm.S:120-149 | the return from an interrupt keeps the invariant, whether it switches or not |
| KernelSwitch.YieldSwitchKeeps | src/60-330/kernel/thread.c:552-559 | yielding keeps the invariant |
| KernelSwitch.ExitSwitchKeeps | src/60-330/kernel/thread.c:429-433 | the last switch of a thread keeps the invariant; it is on no queue any more |
| KernelStores.ExitMarkKeeps | src/60-330/kernel/thread.c:416-427 | marking the thread exited keeps the invariant; without a reference left nobody waits for it |
| KernelSwitch.JoinTestKeeps | src/60-330/kernel/thread.c:521-547 | waiting for a child that has not exited succeeds, the KASSERTs of the test included, and keeps the invariant |
| KernelWaits.JoinJoinsQueue | src/60-330/kernel/thread.c:521-547 | a parent that finds its child not exited waits at the end of the queue of the child, to test again |
| KernelStores.WorkTakeKeeps | src/kernel/workqueue.c:56-61 | the item taken is a thread that has ended |
| KernelStores.WorkRunKeeps | src/60-330/kernel/thread.c:156-160 | the KASSERT of thread_destroy holds |
| KernelCreate.CreateKeeps | src/60-330/kernel/thread.c:238-274 | thread_create keeps the invariant |
| KernelReturns.Creates | src/60-330/kernel/thread.c:238-274 | it adds a ready thread of default priority to the run queue, with a reference for its creator exactly if attached, and touches no other thread |
| KernelCreate.CreateJobKeeps | src/60-330/kernel/thread.c:282-332 | thread_create_from_job keeps the invariant |
| KernelReturns.CreatesJob | src/60-330/kernel/thread.c:282-332 | it adds a thread to the new queue, its priority the burst under SJF, the priority under PRIORITY and the default otherwise, and notes the tick at which it arrives |
| WorkQueues.WorkQueue.Schedule | src/kernel/workqueue.c:82-102 | new work goes to the end of the linked list; head, tail and links stay right |
| WorkQueues.WorkQueue.Take | src/kernel/workqueue.c:56-61 | the oldest work is taken; the tail is cleared with the last item |
| WorkQueues.FirstInFirstOut | src/kernel/workqueue.c:44-108 | over any history of the two, what was taken followed by what is queued is what was scheduled, in order |
| PathTokenizer.NextPathElement | src/kernel/vfs.c:189-221 | the element at the path position is copied with a NUL and the separators after it skipped, or EINVAL and nothing changes if it is longer than 255 |
| PathTokenizer.AllElements | src/kernel/vfs.c:414-418 | iterating over a relative path ends, with the names of its elements, and EINVAL exactly if it stopped before the end |
| PathTokenizer.ElementsAreRuns | src/kernel/vfs.c:189-221 | every element is a maximal non-empty run without separators, at most 255 long, and they come in order |
| PathTokenizer.RunsAreElements | src/kernel/vfs.c:189-221 | every maximal run before the stop is an element, and none after it |
| PathTokenizer.StopsOnlyForLength | src/kernel/vfs.c:201-204 | the iteration stops at the end or at a maximal run longer than 255 |
| PathTokenizer.JoinThenNames | src/kernel/vfs.c:189-221 | joining legal names with one or more separators and taking the path apart gives the names back |
| VfsTree.FileTree.AdjustRefcounts | src/kernel/vfs.c:73-88 | the loop to the root updates the tree as Adjust says, and fails exactly when a KASSERT does |
| VfsTree.AdjustMeans | src/kernel/vfs.c:73-88 | the counts changed are those of the inode and the directories above it, each by delta; it fails exactly if one of them does not allow it |
| VfsTree.FileTree.SearchChildren | src/kernel/vfs.c:238-246 | the search, if it ends, gives the first child if the directory bears the name asked for, else none |
| VfsTree.SearchRight | src/kernel/vfs.c:238-246 | the search finds the first child that bears the name, or rightly none, if and only if there are no children, or directory and first child both bear it, or neither the directory nor any child does |
| VfsTree.SearchWrong | src/kernel/vfs.c:242-242 | a tree at which the search misses the child named, and finds one that is not |
| VfsRuns.NoPanic | src/kernel/vfs.c:229-289 | in no interleaving of lookups and releases does a KASSERT of vfs.c fail |
| VfsRuns.RefcountRule | src/kernel/vfs.c:41-45 | the count of an inode is the number of references, given out or of lookups in progress, to it or below it; positive exactly if there is one |
| VfsRuns.NetZero | src/kernel/vfs.c:456-461 | over any stretch of a run at whose end the same references are out, all counts are as before; so a failed lookup, or one whose reference is released, is net zero |
| VfsRuns.OneAtATime | src/kernel/vfs.c:270-289 | one call at most works on a directory, also while the mutex is released; it is marked busy |
| VfsRuns.MutexExclusive | src/kernel/vfs.c:409-463 | one call at most is at a statement that needs s_fs_mutex, and holds it |
| VfsRuns.SleeperAttended | src/kernel/vfs.c:270-289 | while a call sleeps on a directory, another works on it and will broadcast |
| VfsRuns.SomeCallProceeds | src/kernel/vfs.c:392-494 | no deadlock: as long as a call is under way, some call can take a step, which gets it on unless it searches a child list without end |
| VfsRuns.StepsOn | src/kernel/vfs.c:238-246 | a step of a call leaves everything as it is if and only if the call searches such a list |
| VfsLoops.LoopedExactly | src/kernel/vfs.c:252-254 | a child list has no end exactly from when the driver answers with the inode that is last in it until it answers with another |
| VfsLoops.SearchesEnd | src/kernel/vfs.c:238-246 | in a run in which it never answers so, every search ends |
| VfsLoops.NeverEnds | src/kernel/vfs.c:238-246 | a search of a list without end goes on in every run, with s_fs_mutex held |
| VfsLoops.ThirdLookupSpins | src/kernel/vfs.c:229-264 | three lookups of one file: the driver makes an inode for the first and answers the second with the same; the third never ends |
| InodeLists.InodeList.Append | include/geekos/list.h:71-83 | the list after appending any node: one more, if it was not in it; those up to it, if it was; and without end, if it was the last |
| InodeLists.InodeList.WalkEnds | include/geekos/list.h:182-186 | a walk from the head goes on for ever if and only if the last node leads to itself |
| VfsRuns.ChildrenBelow | src/kernel/vfs.c:239-257 | children in memory have the directory as parent, so that descending stays below it |
| VfsInvariant.AdjustKeeps | src/kernel/vfs.c:412-461 | adding a reference, or taking one away, succeeds and keeps the rule for every inode |
| VfsInvariant.DescendKeeps | src/kernel/vfs.c:440-447 | moving on to a child moves the reference with one increment |
| VfsInvariant.LockKeeps | src/kernel/vfs.c:270-277 | vfs_lock_dir keeps the counting rule and that busy directories have one holder and every sleeper a busy directory |
| VfsInvariant.UnlockKeeps | src/kernel/vfs.c:283-289 | unlocking a directory wakes everybody who waits for it |
| VfsInvariant.NewChildKeeps | src/kernel/vfs.c:252-257 | adding a child the driver made keeps the tree and the counting rule |
| VfsInvariant.OldChildKeeps | src/kernel/vfs.c:252-257 | so does adding one that it has made before, and that may be in the list |
| VfsLookups.LookupFinds | src/kernel/vfs.c:392-447 | in any run, a lookup that returns an inode has searched for exactly the names of the path, in order, each in the directory found before; the inode is what the last search found, as many levels below the start as there are names |
| VfsLookups.LookupFails | src/kernel/vfs.c:398-461 | a lookup returns EINVAL for a path that is too long or after finding all names before one that is, ENOTDIR if a name remains below something that is no directory, or the error of the search that failed |
| VfsLookups.OneOutcome | src/kernel/vfs.c:414-461 | which of these it is, is settled by the answers it got |
| VfsLookups.DriverAskedExactly | src/kernel/vfs.c:238-250 | the driver is asked if and only if the search in memory ends without a child |
| VfsLookups.AnswerListed | src/kernel/vfs.c:249-254 | its answer is listed last, a new inode with the name and kind it gave, and other inodes stay as they are |
| VfsLookups.ReleasedForGood | src/kernel/vfs.c:473-494 | a reference released is never held again |
| VfsRuns.LookupKeeps | src/kernel/vfs.c:398-404 | the KASSERTs at the start of a lookup hold, and the invariant is kept |
| VfsRuns.ReleaseKeeps | src/kernel/vfs.c:480-493 | releasing a reference finds it there |
| BlockRanges.OneBit | src/kernel/range.c:62-80 | exactly one bit is set exactly in powers of two |
| BlockRanges.BitCount | src/kernel/range.c:62-72 | the loop counts the one bits |
| BlockRanges.IsPowerOfTwo | src/kernel/range.c:77-80 | accepts exactly the powers of two |
| BlockRanges.BlocksFillPage | src/kernel/blockdev_pager.c:101-123 | a block size that passes the checks divides the page size |
| BlockRanges.RangeValidExact | src/kernel/range.c:50-57 | the test says whether start + num is at most total, though that sum may not fit in 32 bits |
| BlockRanges.AddOffsetExact | src/kernel/lba.c:48-60 | the KASSERT fails exactly if the sum does not fit in 32 bits |
| BlockRanges.PageRangeExact | src/kernel/blockdev_pager.c:40-70 | a page gets the blocks it should have if and only if it begins within the blocks of the pager and its uncut end has a 32-bit number |
| BlockRanges.LastPageRefused | src/kernel/blockdev_pager.c:53-67 | a pager that ends just below the last 32-bit block number, whose page 1 is refused though it begins within the pager |
| BlockRanges.BeyondRefused | src/kernel/blockdev_pager.c:40-70 | a page beyond the blocks of the pager is refused if and only if its product, wrapped around, is not an offset that a page of the pager could have |
| BlockRanges.PageNumberWraps | src/kernel/blockdev_pager.c:51-51 | a page number for which the product wraps gets the blocks of page 0 |
| BlockRanges.PagesDisjoint | src/kernel/blockdev_pager.c:51-64 | the ranges of different pages are disjoint |
| BlockRanges.PagesCover | src/kernel/blockdev_pager.c:51-64 | the ranges of the pages together are exactly the blocks of the pager |
| BlockRanges.CreatePager | src/kernel/blockdev_pager.c:90-123 | EINVAL exactly for a range beyond the device or blocks larger than a page; otherwise the blocks fill the page |
| Ramdisks.Ramdisk.HandleRequest | src/kernel/ramdisk.c:47-80 | EINVAL exactly for a range not on the disk, and nothing changes; otherwise the blocks are copied and nothing else changes |
| Ramdisks.RamdiskPager.RwPage | src/kernel/blockdev_pager.c:40-70 | on a ramdisk, for any page number, the KASSERTs hold exactly if the page gets a range, and then its blocks are read or written and nothing else changes; if they do not, nothing does |
| Ramdisks.RangeOnDisk | src/kernel/blockdev_pager.c:51-67 | whatever range a page gets is one of blocks of the pager, and on the disk |
| Ramdisks.PageOnDisk | src/kernel/blockdev_pager.c:40-70 | on a ramdisk no page of the pager wraps around, and its bytes are on the disk |
| Ramdisks.ReadAfterWrite | src/kernel/ramdisk.c:61-72 | a page written and read again gives the data written |
| Ramdisks.OthersKept | src/kernel/ramdisk.c:61-72 | writing a page changes no other page and no byte outside the blocks of the pager |
| Peterson.MutualExclusion | src/60-330/peterson.c:5-14 | the two are never in the critical section at once |
| Peterson.NotBothStuck | src/60-330/peterson.c:8-10 | when both spin, turn favours one, whose every access brings it nearer, and no access of the other takes turn away |
| Peterson.GetsIn | src/60-330/peterson.c:8-10 | in every run from there the favoured one is in once it has made at most two accesses of its own, whatever the other does |
| Peterson.NoRivalNoWait | src/60-330/peterson.c:10-12 | without a competing rival a process gets in at once |
| Peterson.BoundedBypass | src/60-330/peterson.c:8-14 | while a process waits, having set turn, its rival gets in at most once |
| Peterson.NextKeeps | src/60-330/peterson.c:5-14 | each memory access keeps the relation of flags, turn and places |
| PageTables.IdentityMapped | src/x86/kernel/x86_vm.c:134-164 | every address from 4096 up to the larger of 4M and the limit rounded up to 4M is mapped to itself, writable; page 0 and everything above is not mapped |
| PageTables.InitPaging | src/x86/kernel/x86_vm.c:112-164 | if the size of the memory has a 32-bit number, the tables map to themselves exactly the addresses from 4096 up to that size, at most 2G, rounded up to 4M and at least 4M |
| PageTables.AllMemoryMapped | src/x86/kernel/x86_vm.c:134-164 | up to 2G, all memory is below the end of what is mapped if and only if it is at most 4M, a multiple of 4M, or more than 1M beyond one |
| PageTables.TopUnmapped | src/x86/kernel/x86_vm.c:134-164 | with 65M of memory the last is not mapped |
| PageTables.LimitRight | src/x86/kernel/x86_vm.c:134-137 | the limit is the size of the memory, at most 2G, if and only if that size has a 32-bit number or wraps around to 2G or more |
| PageTables.LimitWraps | src/x86/kernel/x86_vm.c:134-137 | with 4G of memory nothing beyond the page table is mapped |

## Steps and the code they follow

| function | source |
|---|---|
| KernelSteps.LockStep | src/kernel/synch.c:43-58, 106-113 |
| KernelSteps.UnlockStep | src/kernel/synch.c:64-87, 118-125, 138-154 |
| KernelSteps.ParkStep | src/60-330/kernel/thread.c:484-493; src/kernel/synch.c:163-169 |
| KernelSteps.SignalStep | src/kernel/synch.c:176-194; src/60-330/kernel/thread.c:552-559 |
| KernelSteps.ExitStep | src/60-330/kernel/thread.c:404-434 |
| KernelSteps.JoinStep | src/60-330/kernel/thread.c:335-348, 441-462, 521-547 |
| KernelSteps.WorkStep | src/kernel/workqueue.c:44-69; src/60-330/kernel/thread.c:156-170; src/kernel/keyboard.c:68-87 |
| KernelSteps.CallStep | src/60-330/kernel/thread.c:238-332 for the calls that are one step |
| KernelSteps.WaitOn | src/60-330/kernel/thread.c:468-478 |
| KernelSteps.WakeOne, KernelSteps.WakeAll, KernelAsserts.AssertedWake | src/60-330/kernel/thread.c:498-516; include/geekos/list.h:148-163 |
| KernelSteps.MakeRunnable, KernelSteps.Position | src/60-330/kernel/thread.c:594-603; src/60-330/scheduler.c:10-45 |
| KernelSteps.Relinquish | src/60-330/kernel/thread.c:564-571 |
| KernelSteps.Dispatch | src/60-330/kernel/thread.c:576-589, 610-614 |
| KernelSteps.Detach | src/60-330/kernel/thread.c:179-188; src/kernel/workqueue.c:82-108 |
| KernelSteps.InterruptReturn, KernelSteps.Requeue | src/x86/kernel/x86_int_asm.S:120-149 |
| KernelSteps.Tick | src/60-330/kernel/timer.c:39-58; src/60-330/scheduler.c:48-51 |
| KernelSteps.Next, for a key | src/x86/kernel/x86_keyb.c:240-246 |
| Vfs.WalkStep | src/kernel/vfs.c:414-429, 451-454 |
| Vfs.LockStep, Vfs.UnlockStep | src/kernel/vfs.c:270-289 |
| Vfs.ChildStep, Vfs.DriverStep | src/kernel/vfs.c:229-264 |
| Vfs.DescendStep | src/kernel/vfs.c:440-447 |
| Vfs.Adjusted, VfsTree.Adjust | src/kernel/vfs.c:73-88 |
| Vfs.Next | src/kernel/vfs.c:392-412, 473-494 |
| Peterson.Next | src/60-330/peterson.c:8-12 |
| BlockRanges.PageRange | src/kernel/blockdev_pager.c:51-67 |

## Left out

- Everything before preemption is turned on, and boot memory layout: linker symbols and hardware constants.
- Register-level assembly, GDT, IDT, PIC, PS/2, ATA and VGA: a switch is abstracted as said above.
- The page cache of vm.c: nothing ever sets a frame's cached page number, so that its agreement with the store is not decided by the code.
- Mounting file systems and re-parenting (vfs.c 304-357), which vfs.c marks as unresolved for reference counts; PFAT, whose lookup is a stub.
- `vfs_get_root_dir`, which locks `s_fs_mutex` twice (vfs.c 381): runs start from a reference to the root directory that has been given out.
- `blockdev_issue_sync` and the posting of requests: the pager calls the request handler directly.
- Allocation in the step machine: creating a thread and scheduling work always find memory, do not block, and a thread's identity is not reused after it has been destroyed.
- `gen_pid`, exit codes, names, narration, and everything printed.
- 32-bit wrap-around of the tick counters in the step machine, which counts without bound; the arithmetic of stat.c on the counts is 32-bit.
- The averages of stat.c, min and max of range.c, `lba_get_num_blocks_in_table`, the keyboard's ring buffer: easy members only.
- Liveness other than that of round-robin: aging is commented out, so that SJF and PRIORITY may starve a thread; that the workqueue thread gets to its work depends on the shared wait queue.
- Waiting with a predicate other than that of `thread_join`; killing threads (THREAD_KILLED is never set).
- Calling `thread_exit` with interrupts already disabled.
- Tic-tac-toe, poems, menus, statistics printing and the device registry.
- KernelSteps: takes waking one of an empty queue as waking nobody, because the code tests for it; what the assertion of list.h makes of it is in KernelAsserts, in terms of which the results on panics are stated.
- KernelSteps: also writes a mutex or a thread queue as a value of a map, where the kernel updates records in place; update in place and aliasing of queues are covered by `ThreadQueues` only.
- Vfs: likewise keeps inodes in a map, with the parent's number below the child's, and child lists as what a walk along them meets, which is proved of the linked list in InodeLists; a driver that answers with an inode of another directory is not covered.
- Peterson: assumes sequentially consistent memory, as a single processor provides.
