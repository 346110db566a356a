/** Priority bands, and the thread table after every queued thread has aged
    once. */
module Bands {
  import opened Threads
  import opened SortedLists

  /** The band of L1, the shortest-job-first queue. */
  predicate InL1Band(p: int) { 100 <= p <= 149 }

  /** The band of L2, the priority queue. */
  predicate InL2Band(p: int) { 50 <= p <= 99 }

  /** The band of L3, the FIFO queue. */
  predicate InL3Band(p: int) { 0 <= p <= 49 }

  /** Every queued thread's priority lies in the band of its queue. */
  ghost predicate Banded(th: Table, l1: seq<ThreadId>, l2: seq<ThreadId>, l3: seq<ThreadId>)
    requires Known(th, l1) && Known(th, l2) && Known(th, l3)
  {
    && (forall x :: x in l1 ==> InL1Band(th[x].priority))
    && (forall x :: x in l2 ==> InL2Band(th[x].priority))
    && (forall x :: x in l3 ==> InL3Band(th[x].priority))
  }

  /** An aging adjustment that never lowers a priority, never leaves [0,149] and
      raises a priority by at most 50, so by at most one band. */
  ghost predicate AgingStep(age: ThreadInfo -> int) {
    forall t: ThreadInfo :: 0 <= t.priority <= 149 ==>
      t.priority <= age(t) <= 149 && age(t) <= t.priority + 50
  }

  /** The thread table after the threads of `s` have each aged once. */
  function AgedTable(th: Table, age: ThreadInfo -> int, s: seq<ThreadId>): Table {
    map x | x in th :: if x in s then AgeOne(th[x], age) else th[x]
  }

  /** Under an aging step, a priority in a band stays in it or reaches at most
      the next band. */
  lemma AgingStepBands(age: ThreadInfo -> int, t: ThreadInfo)
    requires AgingStep(age)
    ensures InL1Band(t.priority) ==> InL1Band(age(t))
    ensures InL2Band(t.priority) ==> InL2Band(age(t)) || InL1Band(age(t))
    ensures InL3Band(t.priority) ==> InL3Band(age(t)) || InL2Band(age(t))
  {
  }
}
