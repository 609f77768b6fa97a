# Verification of the RT-Thread Nano kernel

This project models the stateful core of RT-Thread Nano in Dafny 4.11 and proves what its components are for. It
covers the timers, the three memory allocators, the blocking IPC objects, threads and scheduler, the RISC-V trap and context
switch, the formatter, and the in-place list sort of the CoreMark benchmark that the repository carries.

`dafny verify dfyconfig.toml` checks everything.

## How the models are built

Most components come in two parts.

- A specification on values: a `State`, the operations on it as functions, and the invariant. Theorems about whole runs
  (`Run`, `Apps`) are proved about it, by induction over arbitrary sequences of calls, ticks, timeouts and interrupts.
- A class (or methods over linked nodes) with the fields, links and loops of the source. Every method is proved to do what the
  function on the specification does: `Perform` of a class says that each step of the object is the step of the
  specification and keeps the invariant. The lists that threads are in are rings of linked nodes throughout
  (`ThreadLists.ListTable`): the five IPC objects and the scheduler unlink, insert and walk along these.

A region that the source runs with interrupts disabled is one step. Where the source enables interrupts in the middle of a
call, or looks at a state before it disables them, the parts are steps of their own and other steps may come in between: the
copies of a message queue, the time between being woken and running again, the parts of starting and stopping a timer, of
resuming, starting up, suspending and deleting a thread, and of getting a new zone for the slab heap. Addresses are numbers, pools and headers are maps from addresses to fields, and 8-, 16- and
32-bit wrap-around is written out where the source relies on it or can run into it.

| component | files |
|---|---|
| sequences without repetitions, powers of two | Basics |
| list primitives of include/rtservice.h | RtList |
| list sort of coremark/core_list_join.c, and the benchmark that calls it | CoreListSort, CoreListBench |
| timers: meaning in unbounded time, whole runs, skip list over 32-bit ticks | TimerSpec, TimerRuns, TimerQueue |
| memheap: links as cycles, block layout, the heap | Cycle, MemHeapLayout, MemHeap |
| small-memory heap | SmallMemLayout, SmallMem |
| page allocator and slab heap | PageAlloc, SlabSizes, Slab |
| lists of threads: their order, and the rings | WaitQueue, ThreadLists |
| the five IPC objects | Semaphore, Mutex, EventSet, Mailbox, MessageQueue |
| ready bitmap, thread lists and scheduler, time slicing | ReadyBitmap, Threads, RoundRobin |
| RISC-V instructions, trap entry and context switch | RiscV, TrapSwitch |
| formatted output | Format |

## The main results

- **Timers.** In every run, for arbitrary timeout functions that start, stop and change timers, and with ticks and calls between the
  parts of a start or stop, each timer fires in the later of its deadline and the first tick after it was put into the queue,
  in order of deadline and of start on ties (`EveryRunIsGood`, `FiresInItsTick`). A started timer fires at its deadline if and
  only if fewer ticks than its interval come before it is in the queue (`SplitStartFires`). The queue stays in order throughout a
  run if and only if the parts of starts come at the right moments (`RunKeepsIff`). The check loop ends
  (`ServedDueCount`); the skip list over wrapping ticks does exactly this (`Piece`, `CheckTimers`), and its rows are
  sorted sub-lists of each other (`RowsAreSubLists`).
- **Allocators.** All three keep tiling, absence of adjacent holes, exact accounting and disjointness of live memory in every
  run. Each allocation is characterised by when it fails and what it hands out (`Alloc`, `MallocFinds`, `MallocServes`),
  each release by removing exactly one allocation, and reallocation by its outcomes, contents and counters included
  (`Realloc`, `Reallocate`). The list of free pages depends on the set of free pages only (`OrderDoesNotMatter`).
- **IPC.** No lost wakeup in a mailbox or message queue, conservation of nodes and intact messages across copies with interrupts
  enabled, refinement of a bounded FIFO and of a deque, conservation of the semaphore's count, no satisfied waiter on an
  event object, priority inheritance and hand-over of the mutex.
- **Threads.** Every thread is in at most one list, the one its state names, and the bitmap mirrors the ready lists, throughout a run
  if and only if the parts of the calls that resume, suspend and delete threads come at the right moments (`RunKeepsIff`,
  `JoinIsRightIff`, `WithdrawIsRightIff`);
  rt_schedule picks the head of the most urgent list; a ready thread gets its turn within the ticks of those in front of it.
- **Trap and switch.** Over any interleaving of interrupts with any number of reschedulings and of voluntary switches, every thread
  resumes with the context it was interrupted with (`ResumesAsItWas`), by executing the instructions of the two assembly
  files. `mret` and `mstatus` are those of section 3.1.6.1 of the RISC-V Privileged Architecture 20211203.
- **Formatting.** The result of rt_vsnprintf does not depend on the buffer, nothing is written past its end, and the buffer holds the
  prefix that fits (as section 7.21.6.12 of ISO C11 asks).
- **Sorting.** The bottom-up mergesort ends for every comparison, and leaves the same nodes in the one stably sorted order if the
  comparison goes by an order, even when it writes to the data it compares (`MergeSort`). Both comparisons that the
  repository passes do so, the one by values that it caches while it sorts (`SortByData`), the other by index (`SortByIdx`). The
  benchmark puts a list without equal indices back into its original state (`BenchList`).

## Where the code does less than its words

The models follow the code. Where it falls short of its documentation or of what one would expect, one lemma has the exact
condition under which it does not, and another one an input for which it does.

| what falls short | condition | input |
|---|---|---|
| a timer started with interrupts enabled may fire after its deadline | TimerRuns.SplitStartFires | TimerRuns.LateLinkFiresLate |
| a second start between the parts of a start makes the timer be linked in twice, which leaves no ring of the queue (TimerQueue.LinkRow) | TimerRuns.LinkKeepsIff, TimerRuns.RunKeepsIff | TimerRuns.SecondStartBreaks |
| a one-shot timer that its timeout function starts again is queued but not marked active, so that it cannot be stopped | TimerRuns.ServedConsistentIff | TimerRuns.OneShotRestartLosesFlag |
| a thread resumed with interrupts enabled may be resumed twice, and then is linked into its ready list while it is in it, which leaves no ring of that list (ThreadLists.ListTable.Append) | Threads.JoinIsRightIff, Threads.StepKeepsIff | Threads.SecondResumeBreaks, Threads.SecondResumeIsReached |
| rt_thread_suspend tests the state before it disables interrupts, so that a thread deleted in between is marked suspended and may be made ready again | Threads.WithdrawIsRightIff, Threads.StepKeepsIff | Threads.SuspendAfterEndBreaks, Threads.SuspendAfterEndIsReached |
| rt_thread_delete and rt_thread_detach enable interrupts between their parts, so that a thread may be closed while it is in a ready list | Threads.StepKeepsIff, Threads.DeletionIsRight | Threads.TimeoutInDeletionBreaks, Threads.TimeoutInDeletionIsReached |
| the list is said to be back to its original state after core_list_bench (coremark/core_list_join.c, line 156), but equal indices may have changed places | CoreListBench.RestoresIff, CoreListBench.TurnedRoundRestoresIff | CoreListBench.InitialTies |
| `lfree` of src/mem.c is described as the lowest free block (line 118), but shrinking in place does not lower it, so that rt_malloc misses free blocks below it | SmallMem.ShrinkLowestIff, SmallMem.MallocMissesIff | SmallMem.MallocMisses |
| the search of src/mem.c refuses an exact fit at the end of the heap | SmallMem.BoundExcludes | SmallMem.WholeHeapIsRefused |
| chunks of a power of two are meant to be aligned to their size (src/slab.c, line 632), but zones are aligned to pages only | Slab.ChunksAreAligned | Slab.BigChunkMisaligned |
| `mutex->hold` has 8 bits, so that an owner that has taken the mutex 257 times loses it with its first release | Mutex.LastReleaseIff, Mutex.OwnershipIsConsistent | Mutex.ReleasedTooEarly |
| a mutex with a FIFO queue may hand over to a thread less urgent than one that waits | Mutex.FifoHandOverIff | Mutex.FifoInverts |
| `sem->value` has 16 bits, so that a release at the maximum loses the whole count | Semaphore.ReleaseLosesIff, Semaphore.Conservation | Semaphore.FirstReleaseLoses |
| `%o` prints hexadecimal digits, and precision 0 prints no digits, not even of a number other than 0 | Format.StandardIff | Format.OctalEight, Format.PrecisionZero |

## Model

| member | source | states |
|---|---|---|
| RtList.ListNode.constructor | include/rtservice.h:47-50 | a node by itself is an empty ring: both links lead back to it |
| RtList.InsertAfter | include/rtservice.h:58-65 | inserting behind the node at any place of a ring gives the ring with exactly that one member more, in that place, `prev` staying the inverse of `next`; a node that is in the ring already leaves no ring around its head at all, whatever sequence of nodes one takes, and leads to the old successor of the place while the place leads to it |
| RtList.InsertBefore | include/rtservice.h:73-80 | the same in front of a node; in front of the head it appends, and a member that is appended again, to its own ring or to another one, leaves no ring of its own |
| RtList.NoRingLeft | include/rtservice.h:58-80 | why: a member linked in again earlier makes a circle without the head, at its own place it leads to itself, and later or elsewhere it does not lead back to the node before it |
| RtList.Remove | include/rtservice.h:86-92 | the ring loses exactly that member, and the node becomes a ring of its own; it may also have been in no list |
| RtList.RemoveAgain | include/rtservice.h:86-92 | removing a node that is in no list changes nothing, which is what lets timers and threads be removed twice |
| RtList.Unhook | include/rtservice.h:86-92 | the same call for a node in any ring or in none, changing nothing but that ring and the node |
| RtList.Hook | include/rtservice.h:58-80 | either insertion, changing nothing but the ring and the node |
| RtList.IsEmpty | include/rtservice.h:98-101 | true exactly for the ring without members |
| RtList.Len | include/rtservice.h:107-118 | the walk round the ring counts its members |
| RtList.RingIsUnique | include/rtservice.h:47-118 | the links determine members and order, so that a ring stands for one sequence only |
| RtList.MoveToEnd | src/thread.c:449-483 | removing a member and inserting it in front of the head moves it to the end and keeps the order of the others |
| RtList.Transfer | src/thread.c:688-722 | a member that moves to another list leaves the one and is the last of the other; no node is in both |
| RtList.AloneIff | src/thread.c:461-462 | the links of a member in both directions lead to the same node exactly if it is the only member |
| CoreListSort.CallCompare | coremark/core_list_join.c:551-551 | the comparison writes to the data of both nodes and to the results, and its verdict counts |
| CoreListSort.MergeNext | coremark/core_list_join.c:536-576 | one turn of the innermost loop links the front of one of the two runs behind the output, after a comparison that may write, and leaves the outcome of the merge unchanged; the two counters shrink |
| CoreListSort.MergeRuns | coremark/core_list_join.c:533-577 | rewiring in place yields exactly the merge of the two runs behind the earlier output, with the data and results that the comparisons leave, and returns where the rest of the list starts |
| CoreListSort.StepAlong | coremark/core_list_join.c:518-527 | counts at most `insize` nodes and finds the node behind them |
| CoreListSort.PassTurn | coremark/core_list_join.c:515-581 | one turn of a pass merges the next two runs and nothing else |
| CoreListSort.MergePass | coremark/core_list_join.c:509-583 | a pass, with any comparison, leaves a null-terminated list with its runs merged pairwise, the data and results that the comparisons leave, and reports how many merges it made |
| CoreListSort.MergeKeepsNodes | coremark/core_list_join.c:533-577 | merging loses and duplicates no node |
| CoreListSort.RunGrows | coremark/core_list_join.c:551-551 | what has been sorted stays sorted while later comparisons write to other nodes, or to the same ones |
| CoreListSort.MergeSorts | coremark/core_list_join.c:533-577 | merging two neighbouring runs of the original order with a comparison that goes by an order gives a run: stably sorted for the data left behind, and settled unless it is a node that nobody has compared |
| CoreListSort.PassKeepsNodes | coremark/core_list_join.c:509-583 | a pass loses and duplicates no node |
| CoreListSort.PassDoublesRuns | coremark/core_list_join.c:509-590 | after a pass over runs of width w the list consists of runs of width 2w, still in order of original position |
| CoreListSort.MergesAtMostOne | coremark/core_list_join.c:585-587 | the exit test `nmerges <= 1` holds exactly when two runs cover the list |
| CoreListSort.PassProgress | coremark/core_list_join.c:507-591 | a pass that makes at most one merge has made the list one run; one that makes more leaves a run width below the length, the reason why the sort ends |
| CoreListSort.SortSorts | coremark/core_list_join.c:499-595 | for every comparison that goes by an order which its own writes respect: the sort leaves the same nodes in stable order of the data left behind, and every datum settled as soon as there are two nodes |
| CoreListSort.SortChanges | coremark/core_list_join.c:499-595 | whatever kind of change to data the comparison makes, the sort makes no other |
| CoreListSort.PureObeys | coremark/core_list_join.c:66-68 | a comparison that writes nothing and computes a total preorder goes by that order |
| CoreListSort.SortPasses | coremark/core_list_join.c:505-591 | the outer loop ends for any comparison, and does what the specification of the sort says |
| CoreListSort.MergeSort | coremark/core_list_join.c:499-595 | any non-empty null-terminated list is sorted in place with any comparison, also one that writes to the data that it compares and to the results: it ends with the same nodes, each exactly once, and what the comparisons have written; for every order that the comparison goes by it is in that order of the data left behind and of original position for ties |
| CoreListSort.SortedStablyIsUnique | coremark/core_list_join.c:551-565 | a set of nodes has only one stably sorted order, so the result is determined |
| CoreListSort.Reverse | coremark/core_list_join.c:464-476 | the links are turned round: the list of the same nodes in reverse |
| CoreListSort.Remove | coremark/core_list_join.c:376-389 | the node behind leaves the list after the two have exchanged their data, so the data of `item` leaves |
| CoreListSort.UndoRemove | coremark/core_list_join.c:407-419 | exchanges the data again and links the node in behind |
| CoreListSort.RemoveThenUndo | coremark/core_list_join.c:376-419 | undoing a removal restores every link and every datum of the whole list |
| CoreListBench.CachedIs | coremark/core_list_join.c:69-114 | calc_func leaves data that is cached, with the value it returns and the backup as it was, and touches neither data nor results if the data was cached already |
| CoreListBench.CalcWrites | coremark/core_list_join.c:81-111 | what calc_func writes to the results: a value that was not cached goes into the checksum once, before it is cut to seven bits; of each algorithm the first value other than 0 is kept; memory changes only if an algorithm is run |
| CoreListBench.ComplexObeys | coremark/core_list_join.c:120-126 | cmp_complex goes by the value cached in the data: its verdict is right for what it leaves behind, and what is cached keeps its place |
| CoreListBench.IdxObeys | coremark/core_list_join.c:132-142 | cmp_idx goes by the index, and without results rebuilds the data |
| CoreListBench.SortByData | coremark/core_list_join.c:205-206 | the sort with cmp_complex, for any algorithms: the same nodes in stable order of the values that calc_func caches, every node cached if there are two or more; data changes by caching only, once, and data that names no algorithm is its own value |
| CoreListBench.SortByIdx | coremark/core_list_join.c:223-223 | the sort with cmp_idx and no results: the same nodes in stable order of the index, all data rebuilt from its backup if there are two nodes or more, and otherwise as it was |
| CoreListBench.SortData | coremark/core_list_join.c:205-206 | the first of these on the linked nodes |
| CoreListBench.SortIdx | coremark/core_list_join.c:223-223 | the second one on the linked nodes |
| CoreListBench.Find | coremark/core_list_join.c:434-449 | the first node with the index searched for, or with the data if that is negative, or null exactly if there is none |
| CoreListBench.Promote | coremark/core_list_join.c:192-197 | the node behind the one found moves behind the first one, and nothing else moves |
| CoreListBench.SearchAll | coremark/core_list_join.c:173-201 | whatever is searched for and found, the list keeps its nodes and data |
| CoreListBench.SortAndRemove | coremark/core_list_join.c:205-221 | after the sort by data, if there is one, and the removal with its undo the list has the same nodes, and data has changed by caching only |
| CoreListBench.BenchList | coremark/core_list_join.c:154-223 | at the end the list has the same nodes in stable order of the index, relative to their order before the last sort, and every datum is rebuilt from its backup; a list that was in order of index without ties is back to its original state |
| CoreListBench.RestoresIff | coremark/core_list_join.c:154-157 | whatever was done to the order before it, the sort by index gives back the given list if and only if that is in order of the index and, for equal ones, of the order before the sort |
| CoreListBench.TurnedRoundRestoresIff | coremark/core_list_join.c:154-223 | for a list in order of index that has been turned round once, as a search that finds nothing does, the sort by index gives it back if and only if no two indices are equal |
| CoreListBench.InitialTies | coremark/core_list_join.c:289-304 | core_list_init gives equal indices to two nodes with seed 6, and to a node and the head of the list with seed 7 |
| TimerSpec.ServedDueCount | src/timer.c:507-547 | whatever a timeout function starts, stops or changes, fewer timers are due after it, so the check loop ends |
| TimerSpec.Check | src/timer.c:494-553 | after a check nothing at the head is due |
| TimerRuns.CheckKeeps | src/timer.c:494-553 | a check leaves the queue in serving order with nothing due, and every firing happened in its tick and in order, for arbitrary timeout functions |
| TimerRuns.StepKeeps | src/timer.c:296-553 | every tick, call and part of a call keeps the order of queue and firings, if a timer is linked only while it is in no queue and its deadline is computed only then or such that it keeps its place |
| TimerRuns.LinkKeepsIff | src/timer.c:326-396 | linking keeps the queue in order if and only if the timer is not in it already; otherwise it is linked in once more, which TimerQueue.LinkRow says leaves no ring |
| TimerRuns.ComputeKeepsIff | src/timer.c:319-320 | computing a deadline keeps the queue in order if and only if the timer would keep its place between its neighbours, as it does when it is not queued |
| TimerRuns.StepKeepsIff | src/timer.c:296-553 | a step breaks the order of queue and firings if and only if it is one of these two parts of a start at the wrong moment |
| TimerRuns.RunKeepsIff | src/timer.c:296-553 | the queue is in order throughout a run if and only if every such part comes at the right moment |
| TimerRuns.EveryRunIsGood | src/timer.c:296-553 | in every run, with the parts of starts and stops interleaved with ticks and other calls, the queue is ordered by deadline and start; every firing so far took place in the later of its deadline and the first tick after the timer was linked, earlier ticks first and, within a tick, by deadline and by start on ties |
| TimerRuns.FiresInItsTick | src/timer.c:494-553 | a queued timer that nobody starts or stops still waits before its tick and has fired, in exactly that tick, from it on, in every run |
| TimerRuns.StartedTimerFires | src/timer.c:296-412 | a timer started with interval n and interrupts disabled fires in the n-th tick and not earlier |
| TimerRuns.PartsMakeTheCalls | src/timer.c:296-447 | the two interrupt-disabled regions of a start and what lies between them, and the two parts of a stop, make the whole calls when nothing comes in between |
| TimerRuns.SplitStartFires | src/timer.c:309-396 | with any ticks and calls that leave the timer alone between the parts of its start, it fires in the later of the deadline and the first tick after it was linked; that is its deadline if and only if fewer ticks than the interval came in between |
| TimerRuns.LateLinkFiresLate | src/timer.c:315-328 | a timer started at tick 10 with interval 1, the tick interrupt coming before it is linked, is due at 11 and fires at 12 |
| TimerRuns.SecondStartBreaks | src/timer.c:309-396 | a second start of the timer between the parts of the first one: the queue is in order up to the last part, which links the timer in while it is queued |
| TimerRuns.QueuedIffRestarted | src/timer.c:520-527 | after a timeout function the timer it belongs to is queued exactly if the last thing done to it was a start |
| TimerRuns.ServedConsistentIff | src/timer.c:520-543 | serving a timer keeps "active exactly while queued" if and only if the timer is periodic when its timeout function returns or the function did not leave it started |
| TimerRuns.StepConsistentIff | src/timer.c:296-447 | outside a check a step keeps "active exactly while queued" if and only if it is not a part of a stop that comes apart from the other |
| TimerRuns.ActiveWhileQueued | src/timer.c:296-553 | in every run in which no one-shot timer is left started by its own timeout function a timer is active exactly while it is queued |
| TimerRuns.StopEndsConsistentIff | src/timer.c:435-444 | a stop, whose flag is cleared with interrupts enabled, ends with the flag right if and only if nobody has started the timer meanwhile |
| TimerRuns.OneShotRestartLosesFlag | src/timer.c:539-543 | from a fresh timer: a one-shot timer with interval 1 that its timeout function starts again stays queued, is marked inactive and cannot be stopped any more |
| TimerQueue.WrapCompare | src/timer.c:359-366 | for deadlines at most half a wrap apart the unsigned 32-bit differences decide equality and order of the true deadlines |
| TimerQueue.WrapCompareIsTight | src/timer.c:319-323 | one tick beyond the asserted range the comparison is wrong |
| TimerQueue.TowerInsert | src/timer.c:376-391 | inserting into the queue and keeping the tall towers is inserting into each row the new tower reaches |
| TimerQueue.RowsAreSubLists | src/timer.c:342-391 | every row of the skip list is a sorted sub-list of the row below, and the last one is the whole queue |
| TimerQueue.LinkRow | src/timer.c:375-381 | inserting into a row, on its links: the timer joins the row in that place; if it is in the row already, which for the last row means in the queue, no ring is left of that row, wherever the search has led |
| TimerQueue.TimerList.constructor | src/timer.c:679-687 | the empty skip list, at any initial tick |
| TimerQueue.TimerList.Init | src/timer.c:80-105 | adds one inactive timer and changes no other |
| TimerQueue.TimerList.RemoveRows | src/timer.c:121-129 | takes the timer out of every row it is in |
| TimerQueue.TimerList.FindInRow | src/timer.c:345-367 | the scan along one row, on wrapped ticks, stops behind every timer truly due no later and in front of every one truly due later |
| TimerQueue.TimerList.DownFrom | src/timer.c:368-369 | going down a row lands on a place the scan may start from |
| TimerQueue.TimerList.FindRows | src/timer.c:342-370 | finds the right place in every row |
| TimerQueue.TimerList.InsertRows | src/timer.c:376-391 | the bits of the counter choose a tower of some height at least one; exactly the rows it reaches gain the timer |
| TimerQueue.TimerList.PutInRows | src/timer.c:342-391 | the rows then are those of the queue with the timer behind all that are due no later |
| TimerQueue.TimerList.Detach | src/timer.c:121-129 | the timer leaves the queue |
| TimerQueue.TimerList.BeginStart | src/timer.c:309-315 | the first region of a start: out of all rows, and the flag cleared |
| TimerQueue.TimerList.ComputeDue | src/timer.c:323-324 | the wrapped sum of tick and interval is the deadline in unbounded time |
| TimerQueue.TimerList.LinkIn | src/timer.c:326-396 | the second region, up to a fixed number of ticks after the deadline: the search by wrapped differences finds the right place |
| TimerQueue.TimerList.Piece | src/timer.c:309-444 | each part of a start or stop on the skip list is that part in unbounded time |
| TimerQueue.TimerList.Start | src/timer.c:296-412 | over 32-bit ticks, across a wrap as well, does what a start in unbounded time does |
| TimerQueue.TimerList.Stop | src/timer.c:422-447 | stops an active timer, and returns an error and changes nothing for an inactive one |
| TimerQueue.TimerList.SetTime | src/timer.c:459-485 | changes the interval of that timer only, and not its pending deadline |
| TimerQueue.TimerList.SetPeriodic | src/timer.c:459-485 | changes the mode of that timer only |
| TimerQueue.TimerList.Perform | src/timer.c:296-485 | each call on the skip list is the corresponding call in unbounded time |
| TimerQueue.TimerList.HeadIsDue | src/timer.c:507-516 | the unsigned test on the head is true exactly if the true deadline has come |
| TimerQueue.TimerList.Unlink | src/timer.c:509-521 | takes the head out of all rows |
| TimerQueue.TimerList.Conclude | src/timer.c:532-543 | restarts an active periodic timer and marks every other one inactive |
| TimerQueue.TimerList.ServeHead | src/timer.c:507-547 | one turn of the loop serves the head, with an arbitrary timeout function in between |
| TimerQueue.TimerList.CheckTimers | src/timer.c:494-553 | the loop over the skip list terminates and serves exactly the timers that are due |
| TimerQueue.TimerList.TickIncrease | src/clock.c:67-89 | a tick, wrapping at 32 bits, and the check make the step of the unbounded clock and leave nothing due |
| TimerQueue.TimerList.NextTimeout | src/timer.c:108-119 | the earliest deadline as a 32-bit tick; RT_TICK_MAX stands for an empty list, or for a deadline that looks like it, and for nothing else |
| MemHeapLayout.LiveDisjoint | src/memheap.c:138-281 | a live payload lies inside the pool and overlaps no block header |
| MemHeapLayout.PayloadsDisjoint | src/memheap.c:138-281 | no two live payloads share a byte |
| MemHeapLayout.Neighbours | src/memheap.c:50-121 | `prev` is the inverse of `next` on the circular block list |
| MemHeapLayout.CutAt | src/memheap.c:203-213 | cutting a block keeps the tiling and changes the free bytes by exactly the part split off |
| MemHeapLayout.OccupyAt | src/memheap.c:237-258 | giving out a block whole keeps the tiling and takes exactly its payload from the free bytes |
| MemHeapLayout.VacateAt | src/memheap.c:535-538 | a released block is free, and only it and its predecessor may now have a free neighbour behind them |
| MemHeapLayout.AbsorbAt | src/memheap.c:540-578 | merging with the free block behind keeps the tiling and wins exactly one header |
| MemHeap.Heap.constructor | src/memheap.c:50-121 | one free block and a tail block in use, with the pool size rounded down and exact counters |
| MemHeap.Heap.Search | src/memheap.c:169-180 | finds the first listed block that is large enough, or none is |
| MemHeap.Heap.GiveFront | src/memheap.c:187-236 | the rest of the block becomes a listed free block; the counters change by payload and one header |
| MemHeap.Heap.GiveWhole | src/memheap.c:237-258 | a block that is too small to cut is given out whole |
| MemHeap.Heap.Alloc | src/memheap.c:138-281 | serves from the first listed block that is large enough, cut exactly if a further block fits behind; fails, without any change, exactly if the request is not below the available bytes or no listed block is large enough; the high-water mark is the maximum |
| MemHeap.Heap.MergeLeft | src/memheap.c:540-557 | merges with the previous block if that is free, which then already is on the free list |
| MemHeap.Heap.MergeRight | src/memheap.c:559-578 | merges with the next block if that is free, which leaves the free list |
| MemHeap.Heap.Free | src/memheap.c:495-595 | exactly that allocation ends; no two neighbours are free, the free list is exactly the free blocks, and the available bytes grow by the payload and one header for every neighbour that is merged |
| MemHeap.Heap.Grow | src/memheap.c:328-402 | grows in place into the next free block, whose rest stays free and listed |
| MemHeap.Heap.Shrink | src/memheap.c:432-491 | shrinks in place; the rest is merged with a free block behind it, and the available bytes grow by what was cut off, less a header unless it was merged |
| MemHeap.Heap.CopyPayload | src/memheap.c:408-414 | copies into one payload and touches no other |
| MemHeap.Heap.Move | src/memheap.c:408-416 | a new block with the old contents replaces the old one, or nothing changes, exactly if no allocation is possible; the high-water mark counts the moment when both exist |
| MemHeap.Heap.Realloc | src/memheap.c:284-492 | release, allocation, resizing in place, moving with the contents, or failing without any change: the exact condition of each, and what each does to allocations, bytes, available bytes and high-water mark |
| MemHeap.Heap.MaxUsedIsHighWater | src/memheap.c:231-243 | in every run `max_used_size` is the largest value that `pool_size - available_size` has had, and no more than the pool size |
| SmallMem.MallocKeeps | src/mem.c:259-397 | blocks tile the heap, no two neighbours are free, `used_mem` is the length of the used blocks, `lfree` is a free block or the sentinel, and stays the lowest if it was |
| SmallMem.MallocFinds | src/mem.c:286-298 | in any heap in order: fails exactly if no free block at or above `lfree` suits but perhaps the last one with an exact fit; otherwise hands out the first that suits of those |
| SmallMem.MallocMissesIff | src/mem.c:286-298 | fails although a free block could serve if and only if there are such blocks and all of them lie below `lfree`; never while `lfree` is the lowest free block |
| SmallMem.MallocMisses | src/mem.c:458-483 | from a new heap of 88 bytes: after two allocations and a shrink in place a request for 24 bytes fails although 28 are free at offset 24 |
| SmallMem.BoundExcludes | src/mem.c:292-294 | the strict bound of the search shuts out exactly the last block with an exact fit |
| SmallMem.WholeHeapIsRefused | src/mem.c:278-294 | an empty heap refuses a request for all of its bytes, and serves one for four bytes less |
| SmallMem.MallocGives | src/mem.c:259-397 | what is handed out is a block in use, large enough, and inside the heap |
| SmallMem.MallocAdds | src/mem.c:259-397 | exactly that block is in use in addition, and it was not before |
| SmallMem.FreeKeeps | src/mem.c:533-596 | release keeps the heap in order, and `lfree` the lowest free block if it was |
| SmallMem.FreeRemoves | src/mem.c:533-596 | release takes exactly that block out of use |
| SmallMem.MallocThenFree | src/mem.c:259-596 | releasing what was just allocated restores blocks, `lfree` and `used_mem` exactly |
| SmallMem.ShrinkKeeps | src/mem.c:458-483 | shrinking in place keeps the heap in order and leaves the block where it is with the new size |
| SmallMem.ShrinkResizes | src/mem.c:458-483 | it changes the size of that block and no other block in use |
| SmallMem.ShrinkLowestIff | src/mem.c:458-483 | after it `lfree` is still the lowest free block if and only if it lies below the shrunk block or is the block right behind it |
| SmallMem.ReallocKeeps | src/mem.c:408-497 | reallocation keeps the heap in order |
| SmallMem.EveryHeapIsInOrder | src/mem.c:143-596 | tiling, no adjacent holes, exact accounting and a sound `lfree` in every run |
| SmallMem.LfreeIsLowest | src/mem.c:118-118 | in runs that never shrink in place `lfree` is always the lowest free block |
| SmallMem.StaysAllocated | src/mem.c:259-397 | an allocation neither moves nor resizes a block in use, and hands out another address |
| SmallMem.SmallHeap.constructor | src/mem.c:191-244 | one free block between the two headers |
| SmallMem.SmallHeap.Find | src/mem.c:292-298 | the loop over offsets is the search over blocks |
| SmallMem.SmallHeap.Split | src/mem.c:316-335 | cuts a block and links the rest, `prev` staying the inverse of `next` but for the sentinel |
| SmallMem.SmallHeap.GiveOut | src/mem.c:300-374 | hands out the block, split if the rest can hold MIN_SIZE bytes, and moves `lfree` up to the next free block if it was this one |
| SmallMem.SmallHeap.Allocate | src/mem.c:259-397 | the offset-linked heap does what the list of blocks does; no payload byte changes |
| SmallMem.SmallHeap.PlugHoles | src/mem.c:143-181 | joins a free block with its free neighbours on both sides and redirects `lfree` |
| SmallMem.SmallHeap.Release | src/mem.c:533-596 | releases the block, or does nothing for the null pointer; the assertion that the block is in use holds |
| SmallMem.SmallHeap.CutBack | src/mem.c:458-483 | shrinks in place and plugs the hole behind |
| SmallMem.SmallHeap.Reallocate | src/mem.c:408-497 | as specified, and the block keeps as much of its contents as the new size holds while every other allocated block keeps all of its bytes |
| PageAlloc.CanonicalIsUnique | src/slab.c:236-322 | a set of free pages has only one sorted, disjoint, maximally coalesced list |
| PageAlloc.CutIs | src/slab.c:236-270 | allocation takes exactly the pages handed out from the set and keeps the list canonical |
| PageAlloc.FreedIs | src/slab.c:272-322 | release adds exactly the pages given back and keeps the list canonical |
| PageAlloc.AllocThenFree | src/slab.c:236-322 | releasing what was just allocated restores the list exactly |
| PageAlloc.OrderDoesNotMatter | src/slab.c:272-322 | pages released in any order and in any pieces leave the same list |
| PageAlloc.PageHeap.constructor | src/slab.c:327-334 | one run of all pages |
| PageAlloc.PageHeap.Alloc | src/slab.c:236-270 | first fit on the linked headers; nothing is returned exactly if nothing was asked for or no run is long enough |
| PageAlloc.PageHeap.Free | src/slab.c:272-322 | the walk joins or inserts so that the list is again canonical, for the set with the pages added |
| SlabSizes.ZoneIndexIs | src/slab.c:401-459 | every request below 16 KiB gets a chunk that is large enough and wastes less than an eighth or less than 8 bytes |
| SlabSizes.ZoneIndexOfChunk | src/slab.c:401-459 | a request for exactly a chunk size gets that size |
| SlabSizes.ChunkGrows | src/slab.c:401-459 | zone index and chunk size determine each other |
| SlabSizes.ZoneIndexGrows | src/slab.c:401-459 | larger requests get larger chunks |
| SlabSizes.ZoneSizeFor | src/slab.c:374-377 | 32 KiB, or the largest of 64 and 128 KiB that is less than a 1024th of the heap |
| SlabSizes.PowerOfTwoIff | src/slab.c:635-636 | the bit test holds exactly for powers of two |
| SlabSizes.TwoChunks | src/slab.c:628-648 | every zone has room for two chunks at least, all inside the zone, and the offset of the first is a multiple of 8, and of the size if that is a power of two |
| Slab.AllFree | src/slab.c:838-855 | a zone's used chunks are counted by `z_nmax - z_nfree` |
| Slab.TakeKeeps | src/slab.c:539-577 | taking a chunk keeps the heap in order, and the chunk was not in use |
| Slab.OpenKeeps | src/slab.c:625-659 | so does opening a zone |
| Slab.MallocKeeps | src/slab.c:478-667 | rt_malloc keeps all invariants and hands out nothing that was in use |
| Slab.MallocServes | src/slab.c:478-667 | fails exactly if nothing was asked for or list, spare zones and free pages cannot serve; what it hands out is large enough and the only change to the allocations |
| Slab.ChunksAreAligned | src/slab.c:629-638 | where allocations begin: stretches of pages at a page; a chunk at a multiple of 8, and one whose size is a power of two at a multiple of its size if and only if its zone is, hence always up to the size of a page |
| Slab.BigChunkMisaligned | src/slab.c:629-638 | from every new heap of 9 to 1024 pages that begins with an even page the first 8 KiB chunk is not aligned to 8 KiB |
| Slab.ReserveKeeps | src/slab.c:597-607 | taking the pages for a new zone without the lock keeps the heap in order, and fails exactly without a large enough run |
| Slab.ReservedUntilOpened | src/slab.c:597-610 | whatever calls others make before the lock is taken again, the pages stay reserved |
| Slab.OpenReservedKeeps | src/slab.c:610-659 | laying out the zone then keeps the heap in order and hands out an address that was not in use, as the only change to the allocations |
| Slab.StepsMakeTheCall | src/slab.c:587-659 | with nothing in between the two steps make the call |
| Slab.RetireKeeps | src/slab.c:848-901 | a zone with all chunks free that is not alone on its list becomes spare, or goes back to the pages when two are spare already; nothing else is lost |
| Slab.FreeKeeps | src/slab.c:771-904 | rt_free keeps all invariants |
| Slab.FreeLive | src/slab.c:771-904 | rt_free ends exactly that allocation |
| Slab.RecordFinds | src/slab.c:783-828 | the record of a page leads from any allocated address to its own pages or its zone |
| Slab.LiveApart | src/slab.c:478-904 | no two allocations share a byte |
| Slab.EveryHeapIsInOrder | src/slab.c:478-904 | in every run, new zones in two steps included: `z_nfree` is the never-used chunks and the zone's free list, a zone is on its list exactly if it has a free chunk, at most two zones are spare, `used_mem` is the live bytes, allocations are disjoint |
| Slab.SlabHeap.constructor | src/slab.c:344-395 | the heap in order, without zones or allocations; one page in 1024, rounded up, is taken from the front for `memusage`, and the rest is one free run; the zone size is that of the heap size |
| Slab.SlabHeap.Take | src/slab.c:539-577 | a never-used chunk as long as there is one, else the first of the free list; the zone leaves its list with its last chunk |
| Slab.SlabHeap.NewZone | src/slab.c:587-659 | a zone from the page allocator, recorded in `memusage` |
| Slab.SlabHeap.ReservePages | src/slab.c:597-607 | the first of the two steps on the linked structures |
| Slab.SlabHeap.OpenPages | src/slab.c:610-659 | the second one |
| Slab.SlabHeap.Allocate | src/slab.c:478-667 | the linked structures do what the specification does |
| Slab.SlabHeap.Unlink | src/slab.c:862-865 | the walk along the list takes out exactly that zone |
| Slab.SlabHeap.RetireZone | src/slab.c:848-901 | an empty zone is kept spare or returned, as specified |
| Slab.SlabHeap.Release | src/slab.c:771-904 | the linked structures do what the specification does |
| WaitQueue.EnqueueDistinct | src/ipc.c:78-121 | a thread queues once |
| WaitQueue.EnqueueKeepsOrder | src/ipc.c:78-121 | a queue in order of arrival, or of priority and then arrival, stays so when the latest arrival joins |
| WaitQueue.LeaveKeepsOrder | src/ipc.c:132-145 | and when any thread leaves |
| WaitQueue.HeadIsFirst | src/ipc.c:132-145 | the thread woken first is the most urgent, and of those the one that waited longest |
| WaitQueue.EnqueueAt | src/ipc.c:96-115 | enqueueing is inserting at the place the scan finds |
| ThreadLists.OffAllIs | include/rtservice.h:86-92 | a thread leaves the one list that it is in, and no other list changes |
| ThreadLists.ListTable.constructor | include/rtservice.h:47-50 | empty rings, and every thread on its own |
| ThreadLists.ListTable.TakeOut | include/rtservice.h:86-92 | unlinking the node of a thread takes it out of whatever ring it is in, known or not |
| ThreadLists.ListTable.TieToHead | include/rtservice.h:58-80 | linking in the node of a thread at either end of a ring changes that ring only; a thread that is in a list already leaves no ring of that one |
| ThreadLists.ListTable.Append | include/rtservice.h:73-80 | the thread is the last of that list, and no other list changes; if it was in a list already, no ring is left of that one |
| ThreadLists.ListTable.Push | include/rtservice.h:58-65 | the thread is the first of that list; if it was in a list already, no ring is left of that one |
| ThreadLists.ListTable.Empty | include/rtservice.h:98-101 | true exactly for a list without threads |
| ThreadLists.ListTable.First | src/scheduler.c:213-215 | the thread whose node follows the head is the first of the list |
| ThreadLists.ListTable.Alone | src/thread.c:461-462 | the links of its node tell whether another thread is in the same list |
| ThreadLists.ListTable.Scan | src/ipc.c:96-115 | the scan along the ring stops at the first less urgent thread, or at the head |
| ThreadLists.ListTable.Suspend | src/ipc.c:78-121 | links the thread into the ring where the policy says; all other rings stay as they are |
| ThreadLists.ListTable.Resume | src/ipc.c:132-145 | takes the first thread out of the ring |
| ThreadLists.ListTable.ResumeAll | src/ipc.c:155-183 | takes all threads out, from the front, and leaves an empty ring |
| Semaphore.StepKeeps | src/ipc.c:322-513 | every call, timeout, tick and priority change keeps queue, books and order |
| Semaphore.Conservation | src/ipc.c:322-469 | in every run a positive value means that nobody waits; every take was granted, refused, timed out, failed by a reset or still waits; initial value plus releases is value plus grants if and only if no release overflowed the 16-bit value |
| Semaphore.ReleaseLosesIff | src/ipc.c:431-469 | a release loses count exactly if it finds the value at 65535 |
| Semaphore.FirstReleaseLoses | src/ipc.c:431-469 | from a new semaphore with the value 65535: the first release leaves the value 0 |
| Semaphore.ReleaseServesFirst | src/ipc.c:431-469 | unless a waiting thread changed priority, a release hands over to the first by arrival, or by priority and arrival |
| Semaphore.Sem.constructor | src/ipc.c:197-218 | the initial value, and nobody in the ring |
| Semaphore.Sem.TakeFor | src/ipc.c:322-407 | takes, fails at once or waits, as specified |
| Semaphore.Sem.ReleaseIt | src/ipc.c:431-469 | hands over to a waiter or adds to the 16-bit value |
| Semaphore.Sem.Perform | src/ipc.c:322-513 | each step of the object is the step of the specification and keeps its invariant |
| Mutex.StepKeeps | src/ipc.c:652-879 | every step keeps ownership and, in priority mode, inheritance |
| Mutex.OwnershipIsConsistent | src/ipc.c:652-879 | in every run, in either mode: `value` is 1 exactly without an owner, waiters imply an owner, and `hold` is 0 exactly without an owner if and only if the owner does not hold the mutex a multiple of 256 times |
| Mutex.PriorityIsInherited | src/ipc.c:652-777 | in priority mode without outside changes the owner is at least as urgent as every waiter, and all others have their own priority |
| Mutex.LastReleaseIff | src/ipc.c:788-879 | a release ends ownership exactly if the take count is 1 modulo 256 |
| Mutex.ReleasedTooEarly | src/ipc.c:680-700 | from a new mutex: after 257 takes by one thread its first release lets the mutex go, and after 256 `hold` is 0 although the mutex has an owner |
| Mutex.LastReleaseHandsOver | src/ipc.c:788-879 | the last release restores the owner's priority and passes the mutex to the most urgent, longest waiting thread |
| Mutex.FifoHandOverIff | src/ipc.c:788-879 | in FIFO mode the new owner is as urgent as every waiter if and only if the first waiter is the most urgent |
| Mutex.FifoInverts | src/ipc.c:788-879 | from a new mutex in FIFO mode: after three takes a release makes a less urgent thread the owner while a more urgent one waits |
| Mutex.RtMutex.constructor | src/ipc.c:528-548 | free, without an owner |
| Mutex.RtMutex.TakeFor | src/ipc.c:652-777 | takes again, takes, fails or waits with its priority lent to the owner, as specified |
| Mutex.RtMutex.HandOver | src/ipc.c:829-869 | gives the priority back and passes ownership on to the first thread of the ring, or frees the mutex |
| Mutex.RtMutex.ReleaseFor | src/ipc.c:788-879 | an error for a thread that is not the owner; otherwise one hold less, and the hand-over with the last one |
| Mutex.RtMutex.Perform | src/ipc.c:652-879 | each step of the object is the step of the specification and keeps its invariant |
| EventSet.ClearedLess | src/ipc.c:1085-1090 | clearing flags for one thread satisfies no other |
| EventSet.WalkIs | src/ipc.c:1052-1099 | after the walk of a send every thread passed over is unsatisfied by the remaining flags, every woken one got all of an AND or some of an OR, and flags cleared for one thread are seen by none behind it |
| EventSet.StepKeeps | src/ipc.c:1027-1275 | every send, receive, timeout and reset keeps the invariant |
| EventSet.NobodyWaitsInVain | src/ipc.c:1027-1235 | in every run no waiting thread's condition is satisfied by the current flags, and every woken thread has all of an AND or a non-empty part of an OR |
| EventSet.SendServes | src/ipc.c:1027-1109 | what one send does to flags and waiters, stated over the whole queue |
| EventSet.RtEvent.constructor | src/ipc.c:913-931 | no flags, nobody waiting |
| EventSet.RtEvent.Visit | src/ipc.c:1056-1098 | one turn of the loop over the ring: the next node is fetched before the thread is taken out, and what is left of the walk is the same |
| EventSet.RtEvent.WalkRing | src/ipc.c:1056-1098 | the loop over the ring, which loses members on the way, ends, and is the walk over the sequence of waiting threads |
| EventSet.RtEvent.SendFlags | src/ipc.c:1027-1109 | sets the flags and walks, as specified |
| EventSet.RtEvent.RecvFlags | src/ipc.c:1125-1235 | takes the flags, fails or waits, as specified |
| EventSet.RtEvent.Perform | src/ipc.c:1027-1275 | each step of the object is the step of the specification and keeps its invariant |
| Mailbox.StepKeeps | src/ipc.c:1440-1756 | no interleaving of sends, receives, timeouts, priority changes and resets loses a wakeup |
| Mailbox.NoLostWakeup | src/ipc.c:1440-1712 | in every run mails leave in the order in which they came, at most `size` are stored, a waiting receiver sees no more mails than woken receivers still to run, and symmetrically for senders and free slots; once all woken threads have run nobody waits in vain |
| Mailbox.WaitsOnce | src/ipc.c:1440-1712 | a thread waits in one of the two queues at most, and once |
| Mailbox.DeadlineKept | src/ipc.c:1671-1678 | in every state that the invariant allows a thread that waits again after a wakeup in vain keeps the deadline of its call |
| Mailbox.WindowPut | src/ipc.c:1533-1540 | a store at the in-offset appends to the mails between the offsets, wrapping included |
| Mailbox.WindowTake | src/ipc.c:1681-1689 | a fetch at the out-offset removes the oldest and leaves the in-offset right |
| Mailbox.MailBox.constructor | src/ipc.c:1292-1320 | an empty ring of the given size |
| Mailbox.MailBox.Store | src/ipc.c:1533-1545 | the ring refines appending to a bounded FIFO, and the first receiver is woken |
| Mailbox.MailBox.Fetch | src/ipc.c:1681-1694 | the ring refines taking the oldest mail, and the first sender is woken |
| Mailbox.MailBox.SendFrom | src/ipc.c:1440-1559 | a send up to the next point where others may run |
| Mailbox.MailBox.RecvFrom | src/ipc.c:1588-1712 | a receive up to the next point where others may run |
| Mailbox.MailBox.RunAgain | src/ipc.c:1513-1530 | a woken thread tries again with what is left of its timeout, or fails |
| Mailbox.MailBox.Reset | src/ipc.c:1724-1756 | empties the ring and fails all waiting threads |
| Mailbox.MailBox.Perform | src/ipc.c:1440-1756 | each step of the ring is the step of the bounded FIFO and keeps the invariant |
| MessageQueue.StepKeeps | src/ipc.c:1962-2324 | every step of every call keeps the invariant, copies with interrupts enabled included |
| MessageQueue.StepIsDequeStep | src/ipc.c:1962-2324 | linking pushes at the back, or in front if urgent, receiving pops the front, a reset clears, and nothing else touches the deque of messages |
| MessageQueue.NodesAreConserved | src/ipc.c:1962-2324 | in every run free, queued and in-flight nodes partition the `max_msgs` nodes, and no wakeup is lost |
| MessageQueue.MessagesAreIntact | src/ipc.c:1995-2252 | whatever others do meanwhile, a linked node begins with the bytes its sender passed and a receiver gets the node as it was at the front of the queue |
| MessageQueue.FreeAllDiffer | src/ipc.c:2295-2310 | a reset moves every queued node to the free list once |
| MessageQueue.ChainPush | src/ipc.c:2094-2100 | linking in front of a chain |
| MessageQueue.ChainPop | src/ipc.c:2236-2243 | unlinking the front of a chain |
| MessageQueue.ChainAppend | src/ipc.c:2005-2016 | linking behind the tail of a chain, empty or not |
| MessageQueue.MsgQueue.constructor | src/ipc.c:1779-1826 | all nodes on the free list, the queue empty |
| MessageQueue.MsgQueue.BuildFree | src/ipc.c:1812-1820 | the loop links every node of the pool exactly once |
| MessageQueue.MsgQueue.GrabFor | src/ipc.c:1973-1996 | takes a free node, or fails when there is none or the message is too long |
| MessageQueue.MsgQueue.FillFor | src/ipc.c:1998-2001 | the copy into the node, with others running |
| MessageQueue.MsgQueue.PushBack | src/ipc.c:2005-2019 | head, tail and `entry` are right after linking at the end |
| MessageQueue.MsgQueue.PushFront | src/ipc.c:2094-2103 | head, tail and `entry` are right after linking in front |
| MessageQueue.MsgQueue.LinkFor | src/ipc.c:2003-2035 | links the sender's node and wakes the first receiver |
| MessageQueue.MsgQueue.Unlink | src/ipc.c:2236-2246 | takes the first node out; the tail is null when the queue runs empty |
| MessageQueue.MsgQueue.RecvFrom | src/ipc.c:2159-2249 | a receive up to the next point where others may run |
| MessageQueue.MsgQueue.GiveBackFor | src/ipc.c:2254-2260 | the node goes back to the free list after the copy |
| MessageQueue.MsgQueue.DiscardAll | src/ipc.c:2295-2310 | the loop of a reset moves all queued nodes and ends |
| MessageQueue.MsgQueue.Reset | src/ipc.c:2278-2324 | empties the queue and fails all waiting threads; nodes in flight stay with their holders |
| MessageQueue.MsgQueue.Perform | src/ipc.c:1962-2324 | each step of the linked queue is the step of the specification and keeps the invariant |
| ReadyBitmap.SetBitIs | src/scheduler.c:316-319 | setting a bit sets that bit and no other |
| ReadyBitmap.ClearBitIs | src/scheduler.c:357-368 | clearing a bit clears that bit and no other |
| ReadyBitmap.TableIs | src/kservice.c:1281-1298 | the table holds the least set bit of every byte |
| ReadyBitmap.FfsIs | src/kservice.c:1311-1325 | `__rt_ffs` is one more than the least set bit of a 32-bit word, and 0 for 0 |
| ReadyBitmap.IncludeHas | src/scheduler.c:316-319 | marking a priority marks that one and no other, in both variants |
| ReadyBitmap.ExcludeHas | src/scheduler.c:355-368 | unmarking a priority unmarks that one and no other |
| ReadyBitmap.IncludeAgrees | src/scheduler.c:316-319 | the group bit of a byte stays set exactly while the byte is not zero, after marking |
| ReadyBitmap.ExcludeAgrees | src/scheduler.c:355-368 | and after unmarking |
| ReadyBitmap.HighestIsLeast | src/scheduler.c:203-210 | the search, over one or two levels, finds the least marked priority |
| Threads.StepKeeps | src/thread.c:81-753 | every call, tick, timeout and part of a call that comes at the right moment keeps lists, bitmap, states and timers consistent |
| Threads.StepKeepsIff | src/thread.c:265-722 | a step breaks the invariant if and only if it is a part of a call made with interrupts enabled that comes at the wrong moment: rt_thread_startup changes the priority of a thread in a ready list or prepares such a thread, rt_thread_resume detaches one, or joins one that is in a list, has its timer running or is closed; rt_thread_suspend takes a thread that is closed; a deletion closes a thread that is in another list than that of the defunct threads or has its timer running, or adds to that one a thread that is in a list or not closed; or the idle thread is suspended or deleted |
| Threads.RunKeepsIff | src/thread.c:265-722 | the invariant holds throughout a run if and only if every such part comes at the right moment |
| Threads.HalvesMakeTheCall | src/thread.c:265-722 | the two regions of rt_thread_resume, with the first two parts of rt_thread_startup for that call, make the whole call when nothing comes in between |
| Threads.DetachIsRight | src/thread.c:697-713 | between the test of the state and the first region: unless something wakes the thread, that region keeps the invariant |
| Threads.JoinIsRightIff | src/thread.c:706-718 | between the two regions: as long as the thread is not taken out of the ready list again, the second one keeps the invariant if and only if nobody else has resumed, started up or closed the thread |
| Threads.SecondResumeBreaks | src/thread.c:697-718 | a second rt_thread_resume between the regions: all states before the last step are in order, and that step links the thread in while it is in its ready list, which Scheduler.InsertThread says leaves no ring |
| Threads.SecondResumeIsReached | src/thread.c:265-722 | such a run for any thread that has only been initialized |
| Threads.WithdrawIsRightIff | src/thread.c:657-674 | whatever happens between the test of rt_thread_suspend and its region, that region keeps the invariant if and only if the thread has not been ended in between |
| Threads.SuspendAfterEndBreaks | src/thread.c:657-674 | the thread is deleted in between: then it is marked suspended, is closed and in no list, and the next rt_thread_resume puts the deleted thread into a ready list |
| Threads.SuspendAfterEndIsReached | src/thread.c:645-722 | such a run for any thread that has only been initialized |
| Threads.PartsMakeTheEnd | src/thread.c:308-434 | the parts of rt_thread_detach and rt_thread_delete make the whole call when nothing comes in between |
| Threads.DeletionIsRight | src/thread.c:407-434 | whatever happens between the four parts of a deletion, they keep the invariant as long as nothing puts the thread into a list again or suspends it with its timer started |
| Threads.TimeoutInDeletionBreaks | src/thread.c:416-429 | the thread waits with its timer running and times out after the first part: it is closed in its ready list, and the last part links it in once more |
| Threads.TimeoutInDeletionIsReached | src/thread.c:407-434 | such a run for any thread that has only been initialized |
| Threads.EveryThreadIsInOneList | src/thread.c:645-753 | in every orderly run: ready, with no deletion begun, exactly if in the ready list of its current priority, otherwise in at most one list, named by its state; bit p is set exactly if ready list p is not empty; timers run for suspended threads only, so the assertion of rt_thread_timeout never fails |
| Threads.ScheduleIsRight | src/scheduler.c:189-277 | in every orderly run rt_schedule with the scheduler unlocked makes the head of the most urgent non-empty ready list current and changes nothing else |
| Threads.DispatchIsRight | src/scheduler.c:189-277 | the same for any consistent state |
| Threads.Scheduler.constructor | src/scheduler.c:118-145 | empty rings and bitmap, with the idle thread started |
| Threads.Scheduler.InsertThread | src/scheduler.c:286-323 | appends to the ready list of the priority and marks it; a thread that is in a list already leaves no ring of that one |
| Threads.Scheduler.RemoveThread | src/scheduler.c:332-372 | takes the thread out of whatever list it is in and unmarks a priority left empty |
| Threads.Scheduler.RestorePriority | src/thread.c:272-282 | rt_thread_startup sets the current priority to the initial one |
| Threads.Scheduler.PrepareThread | src/thread.c:286-287 | and marks the thread suspended before it calls rt_thread_resume |
| Threads.Scheduler.DetachThread | src/thread.c:706-715 | the first region of rt_thread_resume: out of whatever ring the thread is in, and its timer stopped |
| Threads.Scheduler.ResumeThread | src/thread.c:688-722 | with interrupts disabled: stops the timer and makes the thread ready |
| Threads.Scheduler.StartupThread | src/thread.c:265-297 | with interrupts disabled: starts a thread at its initial priority |
| Threads.Scheduler.Timeout | src/thread.c:731-753 | makes the thread ready; its assertion holds whenever the timer can fire |
| Threads.Scheduler.SuspendThread | src/thread.c:665-674 | the region of rt_thread_suspend, for a thread in any state: out of whatever list it is in, its timer stopped |
| Threads.Scheduler.WaitIn | src/ipc.c:78-121 | suspends a thread into the ring of an object, where the policy says |
| Threads.Scheduler.Control | src/thread.c:566-632 | a ready thread moves to the end of the list of its new priority, any other one keeps its list |
| Threads.Scheduler.LeaveThread | src/thread.c:416-420 | the first part of a deletion: out of whatever list the thread is in, with its state as it was |
| Threads.Scheduler.StopTimer | src/thread.c:422-423 | the second part: the timer stops |
| Threads.Scheduler.MarkClosed | src/thread.c:425-426 | the third part: the thread is closed |
| Threads.Scheduler.BuryThread | src/thread.c:428-435 | the last part: the thread joins the list of the defunct threads; if it is in a list already, no ring is left of that one |
| Threads.Scheduler.Terminate | src/thread.c:81-116 | the exit of a thread, or its deletion in one piece: it leaves all lists but perhaps that of the defunct threads, and its timer stops |
| Threads.Scheduler.YieldNow | src/thread.c:449-483 | by the links of its node alone, the current thread goes to the end of its ring if another one is in it |
| Threads.Scheduler.TickIncrease | src/clock.c:67-89 | one tick less of the time slice; with the last one the slice is refilled and the thread yields |
| Threads.Scheduler.HighestReady | src/scheduler.c:203-210 | the search of rt_schedule |
| Threads.Scheduler.ScheduleNow | src/scheduler.c:189-277 | the switch to the first thread of the ring the search names, which is not empty, unless the scheduler is locked |
| Threads.Scheduler.Perform | src/thread.c:81-753 | each step of the kernel's rings and bitmap is the step of the specification and keeps the invariant |
| RoundRobin.ChangedAhead | src/scheduler.c:298-300 | a thread that joins a ready list at the end gets in front of nobody in it |
| RoundRobin.StepChange | src/thread.c:449-483 | what any event may do to the list a ready thread is in: one leaves, one joins at the end |
| RoundRobin.TurnShrinks | src/clock.c:67-89 | per event no newcomer overtakes, and every tick shortens the wait by one at least |
| RoundRobin.TurnComesInTime | src/clock.c:67-89 | a ready thread becomes current within as many ticks as the threads in front of it have left, in every orderly run in which nobody more urgent becomes ready |
| RiscV.SaveFromIs | libcpu/trap_entry.S:57-84 | the stores leave every register in its slot of the frame and touch nothing outside it |
| RiscV.LoadFromIs | libcpu/context_gcc.S:194-221 | the loads take every register from its slot and change nothing else |
| TrapSwitch.TrapSave | libcpu/trap_entry.S:28-118 | the entry leaves the interrupted context in a frame on the system stack and the thread's stack pointer in mscratch |
| TrapSwitch.CopyLoop | libcpu/trap_entry.S:145-154 | the loop copies the frame word by word to the thread's stack and touches nothing else |
| TrapSwitch.MoveFrame | libcpu/trap_entry.S:128-157 | the thread that was interrupted has its context in a frame on its own stack, its `sp` field points there, and the switch flag is clear |
| TrapSwitch.TakeNext | libcpu/trap_entry.S:160-172 | sp is that of the next thread, and mscratch the system stack top again |
| TrapSwitch.Restore | libcpu/context_gcc.S:163-224 | exactly the context in the frame is resumed at mret |
| TrapSwitch.InterruptExit | libcpu/context_gcc.S:226-288 | the interrupted context is resumed with its own stack pointer, and mscratch is the system stack top |
| TrapSwitch.SwitchHead | libcpu/context_gcc.S:68-94 | the head of a voluntary switch saves pc, ra and the stack pointer of the caller |
| TrapSwitch.StackInit | libcpu/cpuport.c:109-145 | a new thread's frame holds the context with which it enters its function, its parameter in a0 and its exit in ra |
| TrapSwitch.ParkOne | libcpu/trap_entry.S:128-157 | moving one frame leaves all other parked threads as they were |
| TrapSwitch.KeepsContext | libcpu/context_gcc.S:163-288 | while a thread does not run its saved context does not change, in every run |
| TrapSwitch.ResumesAsItWas | libcpu/context_gcc.S:163-288 | a thread that loses the processor continues with the pc, sp, ra and x4 to x31 it was interrupted with, or behind the call with all of them but a0 after a voluntary switch |
| TrapSwitch.Machine.constructor | libcpu/context_gcc.S:45-54 | the first thread starts with its initial context |
| TrapSwitch.Machine.RequestSwitch | libcpu/cpuport.c:158-169 | the first request of an interrupt fixes `from`, every one overwrites `to` |
| TrapSwitch.Machine.RequestAll | libcpu/cpuport.c:158-169 | after any number of requests `from` is the thread really interrupted and `to` the last one scheduled |
| TrapSwitch.Machine.TrapExit | libcpu/trap_entry.S:122-182 | the flag chooses the exit; both resume the right context and leave mscratch at the system stack top |
| TrapSwitch.Machine.Handle | libcpu/trap_entry.S:112-120 | a handler that leaves the kernel's variables and the saved frames alone disturbs nobody |
| TrapSwitch.Machine.Trap | libcpu/trap_entry.S:28-182 | an interrupt with any number of reschedulings resumes the last one scheduled and parks the one interrupted; without any it is invisible to the thread |
| TrapSwitch.Machine.Switch | libcpu/context_gcc.S:68-137 | a voluntary switch parks the caller and resumes the other thread |
| TrapSwitch.Machine.Compute | libcpu/context_gcc.S:163-224 | a running thread that leaves the saved frames alone keeps all parked threads parked |
| Format.BackwardsDenotes | src/kservice.c:676-683 | the digits collected denote the number, with no leading zero |
| Format.DigitsDenote | src/kservice.c:676-683 | the digits collected denote the number to the base that `divide` uses, with no leading zero |
| Format.NumeralIff | src/kservice.c:568-585 | they are a numeral of the number to the base asked for if and only if that is not 8 or the number is less than 8 |
| Format.StandardIff | src/kservice.c:676-765 | the digits printed are what the C standard asks for if and only if precision or number are as they should be: the precision is not 0 or the number is, and the base is not 8 or the number is less than 8 |
| Format.OctalEight | src/kservice.c:968-970 | 8 is printed as "8" by %o |
| Format.PrecisionZero | src/kservice.c:750-765 | 5 is printed as nothing with precision 0 |
| Format.NumberIs | src/kservice.c:606-775 | sign and digits filled to the field width: blanks behind, zeros between or blanks in front, as the flags say; with precision 0 the digits are missing |
| Format.AtoiReads | src/kservice.c:588-595 | the decimal digits of a number are read back as that number |
| Format.Writer.Put | src/kservice.c:812-817 | a character is stored only below the end, but always counted |
| Format.Writer.Fill | src/kservice.c:698-703 | the padding loops |
| Format.WordFits | src/kservice.c:630-635 | a 32-bit number has at most 10 digits |
| Format.Writer.Collect | src/kservice.c:676-683 | the digit loop ends, yields the digits and uses at most 10 of the 16 characters of `tmp` |
| Format.Writer.PrintSign | src/kservice.c:693-748 | blanks, sign and zero padding, and what is left of the width |
| Format.Writer.PrintDigits | src/kservice.c:750-765 | zeros up to the precision and the digits |
| Format.Writer.PrintNumber | src/kservice.c:606-775 | appends the number's text, whatever the room in the buffer |
| Format.ScanDirective | src/kservice.c:820-883 | flags, width, precision and qualifier are read as specified and the scan ends |
| Format.PrintString | src/kservice.c:913-943 | a string, cut at a positive precision and padded; "(NULL)" for a null pointer |
| Format.PrintDirective | src/kservice.c:888-1024 | the text of the directive, whether it takes an argument, and where the format goes on |
| Format.PrintNext | src/kservice.c:810-1025 | one turn of the main loop appends a character or a directive's text and advances |
| Format.Vsnprintf | src/kservice.c:777-1040 | for every size the result is the length of the unbounded output and nothing is written at or past the end; a non-empty buffer holds the first min(size - 1, length) characters followed by NUL |

## Left out

- TimerQueue.TimerList.Start: an interval of 0, which the assertion at src/timer.c:323 admits, is not modelled; a periodic timer with it would keep rt_timer_check in its loop for ever.
- TimerQueue.TimerList.LinkIn: for a timer that is put into the queue late the 32-bit differences decide only as long as intervals and lateness together stay within the asserted range; `slack` bounds the lateness, for any bound.
- TimerRuns.EveryRunIsGood: timeout functions that delete or detach the timer being served, and rt_tick_set, which lets the tick jump, are not among the actions.
- Soft timers: the thread that serves them runs the same loop on a second list.
- CoreListSort.MergeSort: a node holds its data itself, where the source has a pointer to data of its own for every node.
- CoreListBench.BenchList: the checksum that it returns, and the search and the walks that only add to it, are not modelled; the algorithms that calc_func runs, their memory and the checksum step are parameters.
- CoreListBench.InitialTies: of core_list_init only the index that it gives to a node is modelled.
- MemHeap.Heap.Alloc: magic numbers, pool pointers and the lock are left out, headers are kept apart from the payload bytes, and sizes so close to 2^32 that RT_ALIGN wraps are not modelled; the order of the free list is visible to the search but not fixed beyond its members. The test of `available_size` at src/memheap.c:155 comes before the lock is taken; while a shrink of another thread lowers that value for a moment (lines 461 and 485) an allocation can fail that succeeds by the condition proved here.
- SmallMem.SmallHeap.Allocate: magic numbers, memory tracing and the lock are left out, offsets stand for pointers, and payload bytes are kept apart from the headers.
- SmallMem.SmallHeap.constructor: heaps with less than 12 usable bytes are not modelled; in them `mem_size_aligned - size` wraps around, and the search of rt_malloc never leaves the sentinel.
- SmallMem.SmallHeap.Release: pointers outside the heap, which the source rejects or ignores, are not passed.
- Slab.SlabHeap.Allocate: one step; `ReservePages` and `OpenPages` are the steps of a call that gives up the lock for a new zone. The moments between the page allocator and the record of a large allocation, in which nobody else knows the pages, are not steps.
- rt_realloc and rt_calloc of src/slab.c, which are made of the modelled calls.
- Semaphore.Sem.Perform, Mutex.RtMutex.Perform, EventSet.RtEvent.Perform, Mailbox.MailBox.Perform and MessageQueue.MsgQueue.Perform: detaching or deleting an object, which wakes its waiters like a reset, signals, hooks and names are left out, and so is the 32-bit wrap of the difference between two ticks.
- EventSet.RtEvent.SendFlags: a 32-bit word is the set of its bits.
- Mutex.PriorityIsInherited: one mutex, in priority mode, without outside changes of priority; a thread that holds several mutexes does not keep the property.
- MessageQueue.MsgQueue.constructor: pool size and header size enter as the number of nodes.
- Threads.Scheduler.WaitIn: the objects that threads wait for exist from the start.
- Threads.Scheduler.ScheduleNow: rt_current_priority, hooks, stack checks and multi-core scheduling are left out; the lock count is unbounded.
- Threads.Scheduler.InsertThread: the masks kept in each thread are derived from its priority.
- RoundRobin.TurnComesInTime: a call that blocks and the rescheduling after it are one step.
- TrapSwitch.ResumesAsItWas: makes no claim about gp, which is saved but never restored, nor about the interrupt-enable bits of mstatus, which are only ever set.
- TrapSwitch.Machine.Trap: the interrupted stack has room for a frame, the handler leaves the kernel's switch variables and the saved frames alone, and exceptions that return elsewhere are not modelled.
- Format.Vsnprintf: the format contains no NUL, the buffer does not wrap around the address space, and widths stay within an int; RT_PRINTF_PRECISION is on, RT_PRINTF_LONGLONG and RT_PRINTF_SPECIAL are off.
- Memory pools (src/mempool.c), whose count of waiting threads is wrong after a timeout.
- UART, PLIC and CLINT drivers, board start-up and console output: memory-mapped I/O.
- Shell, device layer, object registry, component initialisation and idle hooks: they would only add easy members.
- The other CoreMark kernels (matrix, state machine, CRC).
