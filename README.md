# NachOS multi-level ready-queue scheduler, modelled in Dafny

This project models the scheduler of a NachOS kernel (`code/threads/scheduler.cc`).
It keeps ready threads in three queues, chosen by priority band:

- **L1** holds priorities 100–149. It is sorted by `SJFCompare`, which ranks threads by
  their remaining estimate (`approxBurstTime - burstTime`).
- **L2** holds priorities 50–99. It is sorted by `PriorityCompare`.
- **L3** holds priorities 0–49. It is a plain first-come, first-served list.

What the scheduler does:

- `ReadyToRun` files a thread into the queue of its band.
- `FindNextToRun` takes the front of the first non-empty queue, in the order L1, L2, L3.
- `Run` dispatches the next thread. When the outgoing thread is finishing, `Run` parks it
  in a one-slot `toBeDestroyed`. `CheckToBeDestroyed` empties that slot after the switch.
- `checkPreemptive` peeks at L1's front by removing it and inserting it again.
- `aging` ages every queued thread once. It drains the three queues, front first, into
  fresh queues; an aged thread moves up at most one band.

Modules:

- `Threads` (`threads.dfy`): thread ids, thread metadata (priority, estimated burst,
  used burst, status) and the effect of one call to `Thread::aging()`.
- `Comparators` (`comparators.dfy`): the three comparison functions. `Order` names one
  of them. L1 is built with `SJFCompare` and L2 with `PriorityCompare`. `FIFOCompare` is
  defined but given to no list; L3 is a plain list that is appended to.
- `SortedLists` (`sorted_list.dfy`): the sorted-list insertion rule on sequences of ids,
  and its properties. The new element goes in front of the first element that it
  compares below (result `< 0`), otherwise at the back. So the list stays ascending, and
  ties keep their arrival order.
- `Bands` (`bands.dfy`): the three priority bands and the table of aged metadata.
- `Rebuilding` (`rebuilding.dfy`): what an aging pass computes. It is written as a fold
  over the drain order, one thread per step, and comes with its properties.
- `Scheduling` (`scheduler.dfy`): class `Scheduler`, with the queue fields `L1`, `L2`,
  `L3`, the slot `toBeDestroyed`, the thread table and the running thread. Its methods
  update them in place. The three drain loops of aging are loop methods proved against
  the fold.
- `Scenarios` (`scenarios.dfy`): short scheduling histories on concrete threads, each
  with the outcome fixed by the rules.

Modelling choices:

- Kernel objects the scheduler reads or writes are fields of the class:
  - `kernel->currentThread` is `current`;
  - each thread's metadata lives in the map `threads`.
- `Thread::aging()` is defined outside this file, so it is a parameter
  `age: ThreadInfo -> int`, which gives a thread's priority after aging.
- `Run` is split at `SWITCH`:
  - `Run` is the part before the switch;
  - `RunResume` is what the outgoing thread executes when it is dispatched again.
- `PriorityCompare` returns 1 when its first argument has the higher priority. So
  ascending insertion puts the **lowest**-priority thread at the front of L2, not the
  highest, which is how a priority queue is usually read. The model states L2's order as
  the code gives it.
- `checkPreemptive` compares raw `approxBurstTime`. It does not use the remaining
  estimate `approxBurstTime - burstTime` that orders L1.

## Model

| member | source | states |
|---|---|---|
| Comparators.SJFCompare | code/threads/scheduler.cc:33-37 | result in -1..1; negative iff `a` has less remaining estimate, zero iff the estimates are equal |
| Comparators.PriorityCompare | code/threads/scheduler.cc:39-43 | result in -1..1; negative iff `a` has the lower priority, zero iff the priorities are equal |
| Comparators.Compare | code/threads/scheduler.cc:33-47 | the three comparators under one name: negative iff the first key is smaller; for SJF and priority, zero iff the keys are equal. L1 is built with SJFCompare and L2 with PriorityCompare. FIFOCompare is defined but given to no list: L3 is a plain list whose `Append` the model writes as `+ [t]`, and InsertByArrivalAppends shows the two agree |
| Comparators.FIFOCompare | code/threads/scheduler.cc:45-47 | always positive: a new element never goes ahead of an existing one, so insertion under it appends (see FIFOCompareNotAntisymmetric, InsertByArrivalAppends) |
| Comparators.CompareAntisymmetric | code/threads/scheduler.cc:33-43 | swapping the arguments of SJFCompare or PriorityCompare flips the sign |
| Comparators.FIFOCompareNotAntisymmetric | code/threads/scheduler.cc:45-47 | FIFOCompare answers 1 in both directions, so it is not a three-way comparison |
| Comparators.CompareByKeys | code/threads/scheduler.cc:33-43 | a comparison depends only on the two keys it ranks by |
| Threads.AgeOne | code/threads/scheduler.cc:274 | aging sets the priority to `age` of the thread's metadata and changes nothing else (estimate, used burst and status are kept) |
| SortedLists.InsertionPoint | code/threads/scheduler.cc:93 | the insertion index: every element before it compares `>= 0` against the new element, and the element at it compares `< 0` |
| SortedLists.Insert | code/threads/scheduler.cc:93 | insertion adds exactly the new element: the length grows by one and the multiset gains that element |
| SortedLists.SortedKeys | code/threads/scheduler.cc:93 | in a sorted queue, keys never decrease from front to back |
| SortedLists.SortedFrontIsLeast | code/threads/scheduler.cc:124 | the front of a sorted queue has the least key in it |
| SortedLists.SortedTail | code/threads/scheduler.cc:124 | removing the front keeps a queue sorted |
| SortedLists.SortedFrame | code/threads/scheduler.cc:88 | sortedness depends only on the keys of the queued threads |
| SortedLists.InsertKeepsSorted | code/threads/scheduler.cc:93 | sorted insertion keeps a sorted queue sorted |
| SortedLists.InsertPairOrdered | code/threads/scheduler.cc:96 | after insertion, any two positions are in key order |
| SortedLists.InsertPlacement | code/threads/scheduler.cc:96 | stability: the new element lands behind every element whose key is at most its own (equal keys included) and in front of every larger key; the others keep their order |
| SortedLists.InsertGreatest | code/threads/scheduler.cc:45-47 | an element whose key is at least every key in the queue goes to the back |
| SortedLists.InsertIntoEmpty | code/threads/scheduler.cc:93 | inserting into an empty queue gives the one-element queue |
| SortedLists.InsertAhead | code/threads/scheduler.cc:93 | against a single element, the new element goes in front iff it compares below it |
| SortedLists.InsertByArrivalAppends | code/threads/scheduler.cc:45-47 | insertion under FIFOCompare is appending |
| SortedLists.ReinsertFront | code/threads/scheduler.cc:249-250 | removing L1's front and inserting it again keeps a thread with the front's key at the front; the queue is unchanged when the front's key is strictly least, otherwise the front may move behind equal-key peers |
| SortedLists.DistinctTail | code/threads/scheduler.cc:273 | the front of a duplicate-free queue does not occur in its tail, and the tail is duplicate-free |
| Bands.AgingStepBands | code/threads/scheduler.cc:267-306 | under an aging step (never lowers, stays in [0,149], rises by at most 50), a band's priority stays in it or reaches the next band up |
| Rebuilding.Target | code/threads/scheduler.cc:272-298 | the new queue of a drained thread: L1 stays in L1; L2 goes to L1 iff the aged priority is at least 100; L3 goes to L2 iff it is at least 50 |
| Rebuilding.AgeInto | code/threads/scheduler.cc:272-298 | one drain step keeps the new queues holding known threads and keeps the table's thread set |
| Rebuilding.AgeAll | code/threads/scheduler.cc:272-298 | a whole drain loop keeps the new queues holding known threads and keeps the table's thread set |
| Rebuilding.AgedQueues | code/threads/scheduler.cc:267-306 | the three drains in order, from empty queues, keep the table's thread set |
| Rebuilding.AgeIntoConserves | code/threads/scheduler.cc:279-286 | one step files exactly the drained thread |
| Rebuilding.AgeAllConserves | code/threads/scheduler.cc:278-287 | a drain loop files every drained thread once and loses none |
| Rebuilding.AgeIntoKeeps | code/threads/scheduler.cc:282-285 | a thread already in a new queue stays there after one step |
| Rebuilding.AgeAllKeeps | code/threads/scheduler.cc:278-287 | a thread already in a new queue stays there for a whole drain loop |
| Rebuilding.AgeIntoFiles | code/threads/scheduler.cc:290-297 | one step files the drained thread in the queue its aged priority selects |
| Rebuilding.AgeAllRoutes | code/threads/scheduler.cc:289-298 | every drained thread lands in the queue its aged priority selects |
| Rebuilding.AgeIntoTable | code/threads/scheduler.cc:274 | one step changes the table only by aging the drained thread |
| Rebuilding.AgedTableFront | code/threads/scheduler.cc:273-274 | aging the front and then the rest ages the whole queue |
| Rebuilding.AgeAllTable | code/threads/scheduler.cc:272-276 | a drain loop ages every drained thread once and no other thread |
| Rebuilding.AgeIntoSorted | code/threads/scheduler.cc:275 | one step keeps the new L1 and L2 sorted |
| Rebuilding.AgeIntoApart | code/threads/scheduler.cc:273-275 | after one step, the rest of the drained queue is still outside the new L1 and L2 |
| Rebuilding.AgeAllSorted | code/threads/scheduler.cc:278-287 | a drain loop keeps the new L1 and L2 sorted under their comparators |
| Rebuilding.AgedTableConcat | code/threads/scheduler.cc:272-287 | aging two disjoint queues one after the other ages their concatenation |
| Rebuilding.FirstStages | code/threads/scheduler.cc:272-287 | after the L1 drain and then the L2 drain, the table has aged exactly the threads drained so far, the new queues hold exactly them, and new L1 and L2 are sorted |
| Rebuilding.AgedQueuesShape | code/threads/scheduler.cc:267-306 | after aging, the table has aged exactly the queued threads; the queued multiset is conserved; no thread is queued twice; new L1 and L2 are sorted |
| Rebuilding.AgedQueuesRoutes | code/threads/scheduler.cc:272-298 | each queued thread ends in the queue its source and aged priority select |
| Rebuilding.AgedQueuesRouted | code/threads/scheduler.cc:272-298 | a queued thread ages once and its new queue is selected from its aged priority |
| Rebuilding.AgedQueuesMembers | code/threads/scheduler.cc:267-306 | a thread is in a new queue iff it was in an old one |
| Rebuilding.AgedQueuesPlaces | code/threads/scheduler.cc:272-298 | an L1 thread stays in L1; an L2 thread goes to L1 iff its aged priority is at least 100, else stays in L2; an L3 thread goes to L2 iff at least 50, else stays in L3 |
| Rebuilding.AgedQueuesPlacement | code/threads/scheduler.cc:272-298 | the same placement for every queued thread at once |
| Rebuilding.AgedQueuesBanded | code/threads/scheduler.cc:267-306 | under an aging step, every new queue holds only threads of its priority band |
| Rebuilding.AgedQueuesStatus | code/threads/scheduler.cc:274 | aging keeps every thread's status, and leaves threads that are not queued unchanged |
| Rebuilding.Kept | code/threads/scheduler.cc:289-298 | a thread is kept in L3 iff it was in L3 and its aged priority is below 50 |
| Rebuilding.KeptFrame | code/threads/scheduler.cc:291-292 | which L3 threads are kept depends only on their own table entries |
| Rebuilding.AgeAllLeavesL3 | code/threads/scheduler.cc:272-287 | the L1 and L2 drains never touch the new L3 |
| Rebuilding.AgeAllKept | code/threads/scheduler.cc:289-298 | the L3 drain appends exactly the kept threads to the new L3, in drain order |
| Rebuilding.AgeIntoL3 | code/threads/scheduler.cc:292-297 | one L3 step appends the thread to the new L3 iff its aged priority is below 50 |
| Rebuilding.AgedQueuesL3 | code/threads/scheduler.cc:289-298 | the new L3 is the old L3 minus the promoted threads, in the old order (L3 stays first come, first served) |
| Scheduling.QueuesShrink | code/threads/scheduler.cc:123-132 | removing threads from the queues keeps them known, duplicate-free, banded and ready |
| Scheduling.FileOne | code/threads/scheduler.cc:92-100 | filing one absent thread into one queue adds it once and keeps the queues duplicate-free |
| Scheduling.FileReady | code/threads/scheduler.cc:88-100 | marking the filed thread READY keeps every queued thread READY |
| Scheduling.TakeFront | code/threads/scheduler.cc:123-132 | taking the front of one queue removes exactly that thread |
| Scheduling.SetStatusKeeps | code/threads/scheduler.cc:88 | changing a thread's status keeps the queues sorted and banded |
| Scheduling.AgedReady | code/threads/scheduler.cc:267-306 | aging keeps every queued thread READY |
| Scheduling.AgingOutcome | code/threads/scheduler.cc:267-306 | the whole aging pass: well-formed queues, the aged table, conservation, placement, bands under an aging step, READY kept, L3 order kept |
| Scheduling.DrainL1 | code/threads/scheduler.cc:272-276 | the L1 drain loop computes the fold over old L1 |
| Scheduling.DrainL2 | code/threads/scheduler.cc:278-287 | the L2 drain loop computes the fold over old L2 |
| Scheduling.DrainL3 | code/threads/scheduler.cc:289-298 | the L3 drain loop computes the fold over old L3 |
| Scheduling.AgingPass | code/threads/scheduler.cc:268-298 | the three drain loops in order, from fresh queues, compute the aged queues |
| Scheduling.Scheduler.constructor | code/threads/scheduler.cc:55-61 | three empty queues and an empty destruction slot |
| Scheduling.Scheduler.ReadyToRun | code/threads/scheduler.cc:83-106 | marks the thread READY; priority 100–149 inserts into L1, 50–99 into L2, 0–49 appends to L3; the other queues are unchanged; the total grows by exactly one; bands and READY are kept |
| Scheduling.Scheduler.FindNextToRun | code/threads/scheduler.cc:116-135 | returns none iff all queues are empty; otherwise removes and returns the front of the first non-empty queue in the order L1, L2, L3, leaving the others unchanged; that front has the least SJF key of L1, or the least priority of L2 |
| Scheduling.Scheduler.Run | code/threads/scheduler.cc:154-181 | with `finishing`, an empty slot is required and then holds the outgoing thread; the next thread becomes current with status RUNNING |
| Scheduling.Scheduler.RunResume | code/threads/scheduler.cc:193-208 | after the switch, the slot is checked and left empty |
| Scheduling.Scheduler.CheckToBeDestroyed | code/threads/scheduler.cc:219-226 | returns the parked thread, if any, and always leaves the slot empty |
| Scheduling.Scheduler.CheckPreemptive | code/threads/scheduler.cc:247-258 | true iff L1 is non-empty and its front's estimated burst is strictly below the running thread's; L1 keeps its multiset and the SJF key of its front, and is unchanged when the front's key is strictly least |
| Scheduling.Scheduler.Aging | code/threads/scheduler.cc:267-306 | rebuilds the queues as the aged fold; conserves the queued multiset; L1 threads stay; L2 moves up iff the aged priority is at least 100; L3 moves up iff at least 50; non-promoted L3 threads keep their order; bands kept under an aging step |
| Scenarios.Fresh | code/threads/scheduler.cc:55-61 | a new scheduler has empty queues and an empty slot |
| Scenarios.AdmittedToL1 | code/threads/scheduler.cc:88-93 | a thread of priority in [100,149] admitted to a new scheduler becomes READY, keeps its metadata and is the only thread of L1 |
| Scenarios.AdmittedToL2 | code/threads/scheduler.cc:88-96 | a thread of priority in [50,99] admitted to a new scheduler becomes READY, keeps its metadata and is the only thread of L2 |
| Scenarios.AdmittedToL3 | code/threads/scheduler.cc:88-99 | a thread of priority in [0,49] admitted to a new scheduler becomes READY, keeps its metadata and is the only thread of L3 |
| Scenarios.ShortestFirst | code/threads/scheduler.cc:92-93 | two L1 threads leave in the order of remaining estimate, not arrival |
| Scenarios.OneInL2 | code/threads/scheduler.cc:95-96 | a thread of priority 70 admitted to a new scheduler is the only thread in L2 |
| Scenarios.TwoInL2 | code/threads/scheduler.cc:95-96 | a thread of priority 90 admitted next goes behind the priority-70 thread in L2 |
| Scenarios.LowerPriorityFirstInL2 | code/threads/scheduler.cc:126-127 | of two L2 threads, the lower priority (70) leaves before the higher (90) |
| Scenarios.ArrivalOrderInL3 | code/threads/scheduler.cc:98-99 | two L3 threads leave in arrival order, whatever their priorities |
| Scenarios.LevelsInOrder | code/threads/scheduler.cc:123-134 | an L1 thread is chosen before an earlier L3 thread; with no ready thread, nothing is chosen |
| Scenarios.PreemptByShorter | code/threads/scheduler.cc:247-255 | a shorter ready L1 thread asks for preemption and L1 is unchanged |
| Scenarios.NoPreemptByLonger | code/threads/scheduler.cc:247-258 | a longer ready L1 thread does not ask for preemption |
| Scenarios.FinishThenReclaim | code/threads/scheduler.cc:160-164 | a finishing thread is destroyed by the first check after the switch, and never again |
| Scenarios.AgingPromotesFromL3 | code/threads/scheduler.cc:292-293 | an L3 thread whose aged priority reaches 50 moves to L2 |
| Scenarios.AgingPromotesFromL2 | code/threads/scheduler.cc:281-282 | an L2 thread whose aged priority reaches 100 moves to L1 |

## Left out

- Context switching is not modelled. The model does not cover `SWITCH`, the save and
  restore of user registers and address spaces, or `CheckOverflow`. `SWITCH` only marks
  where `Run` ends and `RunResume` begins. These are calls into machine-dependent code and
  into `Thread`/`AddrSpace`, which are not part of this model.
- `delete` of the parked thread is modelled only as emptying the slot. `CheckToBeDestroyed`
  returns the thread it would destroy.
- The interrupt-level assertions are left out. They are a concurrency discipline, not a
  state change.
- Logging is left out: `DEBUG` output, `cout`, `Print` and the tick counter. It has no
  effect on scheduling.
- `setStartTime` is left out, because it reads the global clock.
- `Thread::aging()` is a parameter. Its body is not part of this model.
- Threads.AgeOne: the aged priority is a function of the thread's metadata (priority,
  estimate, used burst, status) only. So two threads with equal metadata age alike within
  one pass, and aging cannot depend on per-thread state outside that metadata, such as
  how long the thread has waited.
- The `List` and `SortedList` classes are not part of this model. Queues are sequences of
  thread ids; sorted insertion follows the ascending, tie-stable rule above.
- The destructor is left out. It only frees the three lists.
- Scheduling.Scheduler.ReadyToRun: requires that the thread is not already queued. The
  code does not check this, and a thread queued twice would break the duplicate-free
  invariant the other operations rely on.
- Scheduling.Scheduler.Run: requires an empty destruction slot when `finishing` is set.
  The code asserts this fatally before parking the outgoing thread, so the precondition
  stands in for the crash.
- Scheduling.Scheduler.ReadyToRun: requires a priority in [0,149]. Outside that range the
  code reaches a fatal assertion, so the precondition stands in for the crash.
- Scheduling.Scheduler.Aging: band preservation is proved under a sufficient condition
  only: `age` never lowers a priority, stays within [0,149] and raises a priority by at
  most 50. The code files a drained thread by testing its aged priority against 100 (L2)
  or 50 (L3) alone. So a thread can leave its band in three cases, and the model does not
  characterise them further:
  - an L3 thread aged to 100 or more lands in L2;
  - an L1 or L2 thread whose priority drops below its band stays in its old queue;
  - a priority can leave [0,149].
- Thread metadata: priority, estimated burst and used burst are unbounded integers.
  Their width in the thread class is not part of this model, so overflow in
  `approxBurstTime - burstTime` is not modelled.
- The drain loops of aging work on copies of the old queues held in local sequences.
  They do not remove from the fields one element at a time. `Scheduler.Aging` assigns the
  rebuilt queues at the end, which matches the code's swap of the list pointers.
