/** The multi-level ready-queue scheduler. */
module Scheduling {
  import opened Threads
  import opened Comparators
  import opened SortedLists
  import opened Bands
  import opened Rebuilding

  /** The queues name known threads, hold no thread twice, and L1 and L2
      are in their comparators' order. */
  ghost predicate WellFormed(th: Table, l1: seq<ThreadId>, l2: seq<ThreadId>, l3: seq<ThreadId>) {
    && Known(th, l1) && Known(th, l2) && Known(th, l3)
    && Distinct(l1 + l2 + l3)
    && Sorted(BySJF, th, l1)
    && Sorted(ByPriority, th, l2)
  }

  /** Every thread of `s` is marked READY. */
  ghost predicate AllReady(th: Table, s: seq<ThreadId>) {
    forall x :: x in s ==> x in th && th[x].status == Ready
  }

  /** Taking threads out of the queues keeps them duplicate-free, banded and READY. */
  lemma QueuesShrink(th: Table, l1: seq<ThreadId>, l2: seq<ThreadId>, l3: seq<ThreadId>,
                     m1: seq<ThreadId>, m2: seq<ThreadId>, m3: seq<ThreadId>)
    requires Known(th, l1) && Known(th, l2) && Known(th, l3)
    requires multiset(m1) <= multiset(l1) && multiset(m2) <= multiset(l2) && multiset(m3) <= multiset(l3)
    ensures Known(th, m1) && Known(th, m2) && Known(th, m3)
    ensures Distinct(l1 + l2 + l3) ==> Distinct(m1 + m2 + m3)
    ensures Banded(th, l1, l2, l3) ==> Banded(th, m1, m2, m3)
    ensures AllReady(th, l1 + l2 + l3) ==> AllReady(th, m1 + m2 + m3)
  {
    forall x | x in m1 + m2 + m3
      ensures (x in m1 ==> x in l1) && (x in m2 ==> x in l2) && (x in m3 ==> x in l3)
    {
      assert x in m1 ==> x in multiset(m1);
      assert x in m2 ==> x in multiset(m2);
      assert x in m3 ==> x in multiset(m3);
    }
    forall i | 0 <= i < |m1| ensures m1[i] in th { assert m1[i] in m1 + m2 + m3; }
    forall i | 0 <= i < |m2| ensures m2[i] in th { assert m2[i] in m1 + m2 + m3; }
    forall i | 0 <= i < |m3| ensures m3[i] in th { assert m3[i] in m1 + m2 + m3; }
    if Distinct(l1 + l2 + l3) {
      DistinctShrink(l1 + l2 + l3, m1 + m2 + m3);
    }
  }

  /** Filing one thread that was in no queue into exactly one of them adds it
      once and keeps the queues free of duplicates. */
  lemma FileOne(l1: seq<ThreadId>, l2: seq<ThreadId>, l3: seq<ThreadId>,
                m1: seq<ThreadId>, m2: seq<ThreadId>, m3: seq<ThreadId>, t: ThreadId)
    requires Distinct(l1 + l2 + l3) && t !in l1 + l2 + l3
    requires || (multiset(m1) == multiset(l1) + multiset{t} && m2 == l2 && m3 == l3)
             || (m1 == l1 && multiset(m2) == multiset(l2) + multiset{t} && m3 == l3)
             || (m1 == l1 && m2 == l2 && m3 == l3 + [t])
    ensures multiset(m1) <= multiset(l1) + multiset{t}
    ensures multiset(m2) <= multiset(l2) + multiset{t}
    ensures multiset(m3) <= multiset(l3) + multiset{t}
    ensures multiset(m1 + m2 + m3) == multiset(l1 + l2 + l3) + multiset{t}
    ensures Distinct(m1 + m2 + m3)
  {
    DistinctGrow(l1 + l2 + l3, m1 + m2 + m3, t);
  }

  /** Filing `t`, newly marked READY, into queues that otherwise keep their
      threads keeps every queued thread READY, and keeps every queued thread
      in its queue's band when `t` goes to the queue of its band. */
  lemma FileReady(th: Table, t: ThreadId, l1: seq<ThreadId>, l2: seq<ThreadId>, l3: seq<ThreadId>,
                  m1: seq<ThreadId>, m2: seq<ThreadId>, m3: seq<ThreadId>)
    requires t in th && Known(th, l1) && Known(th, l2) && Known(th, l3)
    requires multiset(m1) <= multiset(l1) + multiset{t}
    requires multiset(m2) <= multiset(l2) + multiset{t}
    requires multiset(m3) <= multiset(l3) + multiset{t}
    ensures var th' := th[t := th[t].(status := Ready)];
            && Known(th', m1) && Known(th', m2) && Known(th', m3)
            && (AllReady(th, l1 + l2 + l3) ==> AllReady(th', m1 + m2 + m3))
            && (Banded(th, l1, l2, l3)
                && (t in m1 ==> InL1Band(th[t].priority))
                && (t in m2 ==> InL2Band(th[t].priority))
                && (t in m3 ==> InL3Band(th[t].priority))
                ==> Banded(th', m1, m2, m3))
  {
    var th' := th[t := th[t].(status := Ready)];
    forall x | x in m1 + m2 + m3
      ensures x != t ==> x in l1 + l2 + l3
      ensures x != t && x in m1 ==> x in l1
      ensures x != t && x in m2 ==> x in l2
      ensures x != t && x in m3 ==> x in l3
    {
      if x in m1 { assert x in multiset(m1); }
      if x in m2 { assert x in multiset(m2); }
      if x in m3 { assert x in multiset(m3); }
    }
    forall i | 0 <= i < |m1| ensures m1[i] in th' { assert m1[i] in m1 + m2 + m3; }
    forall i | 0 <= i < |m2| ensures m2[i] in th' { assert m2[i] in m1 + m2 + m3; }
    forall i | 0 <= i < |m3| ensures m3[i] in th' { assert m3[i] in m1 + m2 + m3; }
  }

  /** Taking the front thread off the first non-empty queue removes exactly
      that thread and nothing else. */
  lemma TakeFront(l1: seq<ThreadId>, l2: seq<ThreadId>, l3: seq<ThreadId>,
                  m1: seq<ThreadId>, m2: seq<ThreadId>, m3: seq<ThreadId>, x: ThreadId)
    requires || (l1 != [] && x == l1[0] && m1 == l1[1..] && m2 == l2 && m3 == l3)
             || (l1 == [] && l2 != [] && x == l2[0] && m1 == l1 && m2 == l2[1..] && m3 == l3)
             || (l1 == [] && l2 == [] && l3 != [] && x == l3[0] && m1 == l1 && m2 == l2 && m3 == l3[1..])
    ensures multiset(m1 + m2 + m3) + multiset{x} == multiset(l1 + l2 + l3)
    ensures multiset(m1) <= multiset(l1) && multiset(m2) <= multiset(l2) && multiset(m3) <= multiset(l3)
  {
    if l1 != [] {
      FrontOff(l1, m1, x);
      assert l1 + l2 + l3 == [x] + (m1 + m2 + m3) by {
        assert l1 == [x] + m1;
      }
    } else if l2 != [] {
      FrontOff(l2, m2, x);
      assert l1 + l2 + l3 == [x] + (m1 + m2 + m3) by {
        assert l2 == [x] + m2;
      }
    } else {
      FrontOff(l3, m3, x);
      assert l1 + l2 + l3 == [x] + (m1 + m2 + m3) by {
        assert l3 == [x] + m3;
      }
    }
    Prepended(x, m1 + m2 + m3);
  }

  /** Putting a thread in front of a sequence adds it once. */
  lemma Prepended(x: ThreadId, s: seq<ThreadId>)
    ensures multiset([x] + s) == multiset(s) + multiset{x}
  {
  }

  /** A non-empty queue is its front followed by the rest. */
  lemma FrontOff(l: seq<ThreadId>, m: seq<ThreadId>, x: ThreadId)
    requires l != [] && x == l[0] && m == l[1..]
    ensures multiset(l) == multiset(m) + multiset{x}
  {
    assert l == [x] + m;
  }

  /** Changing one thread's status keeps the queues' keys, order and bands. */
  lemma SetStatusKeeps(th: Table, t: ThreadId, st: Status, l1: seq<ThreadId>, l2: seq<ThreadId>, l3: seq<ThreadId>)
    requires t in th && Known(th, l1) && Known(th, l2) && Known(th, l3)
    ensures var th' := th[t := th[t].(status := st)];
            && Known(th', l1) && Known(th', l2) && Known(th', l3)
            && (Sorted(BySJF, th, l1) ==> Sorted(BySJF, th', l1))
            && (Sorted(ByPriority, th, l2) ==> Sorted(ByPriority, th', l2))
            && (Banded(th, l1, l2, l3) ==> Banded(th', l1, l2, l3))
  {
    var th' := th[t := th[t].(status := st)];
    if Sorted(BySJF, th, l1) {
      SortedFrame(BySJF, th, th', l1);
    }
    if Sorted(ByPriority, th, l2) {
      SortedFrame(ByPriority, th, th', l2);
    }
  }

  /** Aging keeps every queued thread READY. */
  lemma AgedReady(age: ThreadInfo -> int, th: Table, l1: seq<ThreadId>, l2: seq<ThreadId>, l3: seq<ThreadId>)
    requires Known(th, l1) && Known(th, l2) && Known(th, l3) && Distinct(l1 + l2 + l3)
    requires AllReady(th, l1 + l2 + l3)
    ensures var r := AgedQueues(age, th, l1, l2, l3);
            AllReady(r.th, r.n1 + r.n2 + r.n3)
  {
    var r := AgedQueues(age, th, l1, l2, l3);
    AgedQueuesShape(age, th, l1, l2, l3);
    forall x | x in r.n1 + r.n2 + r.n3
      ensures x in r.th && r.th[x].status == Ready
    {
      AgedQueuesPlaces(age, th, l1, l2, l3, x);
    }
  }

  /** What the rebuilt table and queues of an aging pass satisfy, stated on
      the rebuilt values themselves. */
  lemma AgingOutcome(age: ThreadInfo -> int, th: Table, l1: seq<ThreadId>, l2: seq<ThreadId>, l3: seq<ThreadId>,
                     th': Table, m1: seq<ThreadId>, m2: seq<ThreadId>, m3: seq<ThreadId>, cur: ThreadId)
    requires WellFormed(th, l1, l2, l3) && cur in th
    requires Rebuild(th', m1, m2, m3) == AgedQueues(age, th, l1, l2, l3)
    ensures WellFormed(th', m1, m2, m3) && cur in th'
    ensures th' == AgedTable(th, age, l1 + l2 + l3)
    ensures multiset(m1 + m2 + m3) == multiset(l1 + l2 + l3)
    ensures forall t :: t in l1 ==> t in m1
    ensures forall t :: t in l2 ==>
              (t in m1 <==> th'[t].priority >= 100) && (t in m2 <==> th'[t].priority < 100)
    ensures forall t :: t in l3 ==>
              t !in m1 && (t in m2 <==> th'[t].priority >= 50) && (t in m3 <==> th'[t].priority < 50)
    ensures Banded(th, l1, l2, l3) && AgingStep(age) ==> Banded(th', m1, m2, m3)
    ensures AllReady(th, l1 + l2 + l3) ==> AllReady(th', m1 + m2 + m3)
    ensures m3 == Kept(age, th, l3)
  {
    AgedQueuesShape(age, th, l1, l2, l3);
    AgedQueuesL3(age, th, l1, l2, l3);
    AgedQueuesPlacement(age, th, l1, l2, l3);
    if Banded(th, l1, l2, l3) && AgingStep(age) {
      AgedQueuesBanded(age, th, l1, l2, l3);
    }
    if AllReady(th, l1 + l2 + l3) {
      AgedReady(age, th, l1, l2, l3);
    }
  }

  /** The first drain loop of aging: every thread of old L1, front first,
      ages and is inserted into the new L1. */
  method DrainL1(age: ThreadInfo -> int, th: Table, q: seq<ThreadId>, n1: seq<ThreadId>, n2: seq<ThreadId>, n3: seq<ThreadId>)
    returns (th': Table, m1: seq<ThreadId>, m2: seq<ThreadId>, m3: seq<ThreadId>)
    requires Holds(Rebuild(th, n1, n2, n3)) && Known(th, q)
    ensures Rebuild(th', m1, m2, m3) == AgeAll(age, Rebuild(th, n1, n2, n3), q, FromL1)
  {
    th', m1, m2, m3 := th, n1, n2, n3;
    var rest := q;
    while rest != []
      invariant Holds(Rebuild(th', m1, m2, m3)) && th'.Keys == th.Keys && Known(th', rest)
      invariant AgeAll(age, Rebuild(th', m1, m2, m3), rest, FromL1) == AgeAll(age, Rebuild(th, n1, n2, n3), q, FromL1)
      decreases |rest|
    {
      var t := rest[0];
      rest := rest[1..];
      th' := th'[t := AgeOne(th'[t], age)];
      m1 := Insert(BySJF, th', m1, t);
    }
  }

  /** The second drain loop: every thread of old L2, front first, ages and is
      inserted into the new L1 when its priority reached 100, into the new L2
      otherwise. */
  method DrainL2(age: ThreadInfo -> int, th: Table, q: seq<ThreadId>, n1: seq<ThreadId>, n2: seq<ThreadId>, n3: seq<ThreadId>)
    returns (th': Table, m1: seq<ThreadId>, m2: seq<ThreadId>, m3: seq<ThreadId>)
    requires Holds(Rebuild(th, n1, n2, n3)) && Known(th, q)
    ensures Rebuild(th', m1, m2, m3) == AgeAll(age, Rebuild(th, n1, n2, n3), q, FromL2)
  {
    th', m1, m2, m3 := th, n1, n2, n3;
    var rest := q;
    while rest != []
      invariant Holds(Rebuild(th', m1, m2, m3)) && th'.Keys == th.Keys && Known(th', rest)
      invariant AgeAll(age, Rebuild(th', m1, m2, m3), rest, FromL2) == AgeAll(age, Rebuild(th, n1, n2, n3), q, FromL2)
      decreases |rest|
    {
      var t := rest[0];
      rest := rest[1..];
      th' := th'[t := AgeOne(th'[t], age)];
      if th'[t].priority >= 100 {
        m1 := Insert(BySJF, th', m1, t);
      } else {
        m2 := Insert(ByPriority, th', m2, t);
      }
    }
  }

  /** The third drain loop: every thread of old L3, front first, ages and is
      inserted into the new L2 when its priority reached 50, appended to the
      new L3 otherwise. */
  method DrainL3(age: ThreadInfo -> int, th: Table, q: seq<ThreadId>, n1: seq<ThreadId>, n2: seq<ThreadId>, n3: seq<ThreadId>)
    returns (th': Table, m1: seq<ThreadId>, m2: seq<ThreadId>, m3: seq<ThreadId>)
    requires Holds(Rebuild(th, n1, n2, n3)) && Known(th, q)
    ensures Rebuild(th', m1, m2, m3) == AgeAll(age, Rebuild(th, n1, n2, n3), q, FromL3)
  {
    th', m1, m2, m3 := th, n1, n2, n3;
    var rest := q;
    while rest != []
      invariant Holds(Rebuild(th', m1, m2, m3)) && th'.Keys == th.Keys && Known(th', rest)
      invariant AgeAll(age, Rebuild(th', m1, m2, m3), rest, FromL3) == AgeAll(age, Rebuild(th, n1, n2, n3), q, FromL3)
      decreases |rest|
    {
      var t := rest[0];
      rest := rest[1..];
      th' := th'[t := AgeOne(th'[t], age)];
      if th'[t].priority >= 50 {
        m2 := Insert(ByPriority, th', m2, t);
      } else {
        m3 := m3 + [t];
      }
    }
  }

  /** One aging pass over copies of the three queues: the three drain loops
      in order, starting from empty queues. */
  method AgingPass(age: ThreadInfo -> int, th: Table, l1: seq<ThreadId>, l2: seq<ThreadId>, l3: seq<ThreadId>)
    returns (th': Table, m1: seq<ThreadId>, m2: seq<ThreadId>, m3: seq<ThreadId>)
    requires Known(th, l1) && Known(th, l2) && Known(th, l3)
    ensures Rebuild(th', m1, m2, m3) == AgedQueues(age, th, l1, l2, l3)
  {
    var th1, a1, a2, a3 := DrainL1(age, th, l1, [], [], []);
    var th2, b1, b2, b3 := DrainL2(age, th1, l2, a1, a2, a3);
    th', m1, m2, m3 := DrainL3(age, th2, l3, b1, b2, b3);
  }

  /** The scheduler's state: the three ready queues, the slot of the thread
      waiting to be destroyed, and the two pieces of kernel state it reads and
      writes, the thread table and the running thread. */
  class Scheduler {
    /** Shortest remaining estimate first (SJFCompare), priorities [100,149]. */
    var L1: seq<ThreadId>
    /** Sorted by PriorityCompare, priorities [50,99]. */
    var L2: seq<ThreadId>
    /** Arrival order, priorities [0,49]. */
    var L3: seq<ThreadId>
    /** The finished thread whose destruction waits for the next dispatch. */
    var toBeDestroyed: Option<ThreadId>
    /** Metadata of every thread. */
    var threads: Table
    /** The running thread. */
    var current: ThreadId

    /** The queues only hold known threads, no thread is queued twice, and the
        two sorted lists are sorted under their comparators. */
    ghost predicate Valid()
      reads this
    {
      && WellFormed(threads, L1, L2, L3)
      && current in threads
    }

    /** Every queued thread lies in its queue's priority band. */
    ghost predicate BandedQueues()
      reads this
      requires Valid()
    {
      Banded(threads, L1, L2, L3)
    }

    /** Every queued thread is marked READY. */
    ghost predicate ReadyConsistent()
      reads this
      requires Valid()
    {
      AllReady(threads, L1 + L2 + L3)
    }

    /** No ready threads and no thread waiting for destruction. */
    constructor (table: Table, running: ThreadId)
      requires running in table
      ensures Valid() && BandedQueues() && ReadyConsistent()
      ensures L1 == [] && L2 == [] && L3 == [] && toBeDestroyed == None
      ensures threads == table && current == running
    {
      L1, L2, L3 := [], [], [];
      toBeDestroyed := None;
      threads, current := table, running;
    }

    /** Marks `t` ready and files it by priority band; a priority outside
        [0,149] is fatal in the kernel and excluded here. */
    method ReadyToRun(t: ThreadId)
      requires Valid()
      requires t in threads && t !in L1 + L2 + L3
      requires 0 <= threads[t].priority <= 149
      modifies this`threads, this`L1, this`L2, this`L3
      ensures Valid()
      ensures threads == old(threads)[t := old(threads)[t].(status := Ready)]
      ensures InL1Band(threads[t].priority) ==>
                L1 == Insert(BySJF, threads, old(L1), t) && L2 == old(L2) && L3 == old(L3)
      ensures InL2Band(threads[t].priority) ==>
                L1 == old(L1) && L2 == Insert(ByPriority, threads, old(L2), t) && L3 == old(L3)
      ensures InL3Band(threads[t].priority) ==>
                L1 == old(L1) && L2 == old(L2) && L3 == old(L3) + [t]
      ensures multiset(L1 + L2 + L3) == multiset(old(L1 + L2 + L3)) + multiset{t}
      ensures |L1| + |L2| + |L3| == old(|L1| + |L2| + |L3|) + 1
      ensures old(BandedQueues()) ==> BandedQueues()
      ensures old(ReadyConsistent()) ==> ReadyConsistent()
    {
      ghost var th0 := threads;
      SetStatusKeeps(threads, t, Ready, L1, L2, L3);
      threads := threads[t := threads[t].(status := Ready)];
      var priority := threads[t].priority;
      if 100 <= priority <= 149 {
        InsertKeepsSorted(BySJF, threads, L1, t);
        L1 := Insert(BySJF, threads, L1, t);
      } else if 50 <= priority <= 99 {
        InsertKeepsSorted(ByPriority, threads, L2, t);
        L2 := Insert(ByPriority, threads, L2, t);
      } else {
        L3 := L3 + [t];
      }
      FileOne(old(L1), old(L2), old(L3), L1, L2, L3, t);
      FileReady(th0, t, old(L1), old(L2), old(L3), L1, L2, L3);
    }

    /** Removes and returns the front of the first non-empty queue in the order
        L1, L2, L3, or returns None when all three are empty. The thread's
        status is not touched. */
    method FindNextToRun() returns (thread: Option<ThreadId>)
      requires Valid()
      modifies this`L1, this`L2, this`L3
      ensures Valid()
      ensures thread == None <==> old(L1) == [] && old(L2) == [] && old(L3) == []
      ensures old(L1) != [] ==>
                thread == Some(old(L1)[0]) && L1 == old(L1)[1..] && L2 == old(L2) && L3 == old(L3)
      ensures old(L1) == [] && old(L2) != [] ==>
                thread == Some(old(L2)[0]) && L1 == [] && L2 == old(L2)[1..] && L3 == old(L3)
      ensures old(L1) == [] && old(L2) == [] && old(L3) != [] ==>
                thread == Some(old(L3)[0]) && L1 == [] && L2 == [] && L3 == old(L3)[1..]
      ensures thread.Some? ==> multiset(L1 + L2 + L3) + multiset{thread.value} == multiset(old(L1 + L2 + L3))
      ensures old(L1) != [] ==>
                forall x :: x in old(L1) ==> Remaining(threads[thread.value]) <= Remaining(threads[x])
      ensures old(L1) == [] && old(L2) != [] ==>
                forall x :: x in old(L2) ==> threads[thread.value].priority <= threads[x].priority
      ensures old(BandedQueues()) ==> BandedQueues()
      ensures old(ReadyConsistent()) ==> ReadyConsistent()
    {
      thread := None;
      if L1 != [] {
        SortedFrontIsLeast(BySJF, threads, L1);
        SortedTail(BySJF, threads, L1);
        thread := Some(L1[0]);
        L1 := L1[1..];
      } else if L2 != [] {
        SortedFrontIsLeast(ByPriority, threads, L2);
        SortedTail(ByPriority, threads, L2);
        thread := Some(L2[0]);
        L2 := L2[1..];
      } else if L3 != [] {
        thread := Some(L3[0]);
        L3 := L3[1..];
      }
      if thread.Some? {
        TakeFront(old(L1), old(L2), old(L3), L1, L2, L3, thread.value);
        QueuesShrink(threads, old(L1), old(L2), old(L3), L1, L2, L3);
      }
    }

    /** The half of Run before the context switch: with `finishing` set, the
        outgoing thread is recorded for destruction (the slot must be empty);
        then `nextThread` becomes the running thread, marked RUNNING. Returns
        the outgoing thread. */
    method Run(nextThread: ThreadId, finishing: bool) returns (oldThread: ThreadId)
      requires Valid() && nextThread in threads
      requires finishing ==> toBeDestroyed == None
      modifies this`toBeDestroyed, this`current, this`threads
      ensures Valid()
      ensures oldThread == old(current) && current == nextThread
      ensures threads == old(threads)[nextThread := old(threads)[nextThread].(status := Running)]
      ensures toBeDestroyed == if finishing then Some(oldThread) else old(toBeDestroyed)
      ensures finishing && nextThread != oldThread ==> toBeDestroyed != Some(current)
      ensures old(BandedQueues()) ==> BandedQueues()
      ensures old(ReadyConsistent()) && nextThread !in L1 + L2 + L3 ==> ReadyConsistent()
    {
      oldThread := current;
      if finishing {
        toBeDestroyed := Some(oldThread);
      }
      SetStatusKeeps(threads, nextThread, Running, L1, L2, L3);
      current := nextThread;
      threads := threads[nextThread := threads[nextThread].(status := Running)];
    }

    /** The half of Run that executes when the outgoing thread is dispatched
        again, after the context switch: the thread that finished before the
        switch is destroyed, exactly once, and the slot is emptied. */
    method RunResume() returns (destroyed: Option<ThreadId>)
      requires Valid()
      modifies this`toBeDestroyed
      ensures Valid()
      ensures destroyed == old(toBeDestroyed) && toBeDestroyed == None
    {
      destroyed := CheckToBeDestroyed();
    }

    /** Destroys the thread waiting in the slot, if any, and empties the slot.
        Returns the destroyed thread. */
    method CheckToBeDestroyed() returns (destroyed: Option<ThreadId>)
      requires Valid()
      modifies this`toBeDestroyed
      ensures Valid()
      ensures destroyed == old(toBeDestroyed) && toBeDestroyed == None
    {
      destroyed := None;
      if toBeDestroyed != None {
        destroyed := toBeDestroyed;
        toBeDestroyed := None;
      }
    }

    /** True exactly when L1 has a front whose estimated burst is strictly less
        than the running thread's. The front is peeked at by removing it and
        inserting it again, which may move it behind its equal-key peers. */
    method CheckPreemptive() returns (preempt: bool)
      requires Valid()
      modifies this`L1
      ensures Valid()
      ensures preempt <==> old(L1) != [] && threads[old(L1)[0]].approxBurst < threads[current].approxBurst
      ensures L1 == if old(L1) == [] then [] else Insert(BySJF, threads, old(L1)[1..], old(L1)[0])
      ensures multiset(L1) == multiset(old(L1))
      ensures old(L1) != [] ==> Remaining(threads[L1[0]]) == Remaining(threads[old(L1)[0]])
      ensures (old(L1) != [] && (|old(L1)| == 1 || Remaining(threads[old(L1)[0]]) < Remaining(threads[old(L1)[1]])))
                ==> L1 == old(L1)
      ensures old(BandedQueues()) ==> BandedQueues()
      ensures old(ReadyConsistent()) ==> ReadyConsistent()
    {
      preempt := false;
      if L1 != [] {
        ReinsertFront(BySJF, threads, L1);
        SortedTail(BySJF, threads, L1);
        var first := L1[0];
        assert L1 == [first] + L1[1..];
        L1 := L1[1..];
        InsertKeepsSorted(BySJF, threads, L1, first);
        L1 := Insert(BySJF, threads, L1, first);
        var now := current;
        if threads[first].approxBurst < threads[now].approxBurst {
          preempt := true;
        }
      }
      QueuesShrink(threads, old(L1), L2, L3, L1, L2, L3);
    }

    /** Ages every queued thread once and rebuilds the three queues from
        scratch, draining L1, then L2, then L3 front first: L1 threads stay in
        L1, an L2 thread moves to L1 when its aged priority is at least 100,
        an L3 thread moves to L2 when its aged priority is at least 50.
        `age` gives a thread's priority after Thread::aging(). */
    method Aging(age: ThreadInfo -> int)
      requires Valid()
      modifies this`L1, this`L2, this`L3, this`threads
      ensures Valid()
      ensures Rebuild(threads, L1, L2, L3) == AgedQueues(age, old(threads), old(L1), old(L2), old(L3))
      ensures threads == AgedTable(old(threads), age, old(L1 + L2 + L3))
      ensures multiset(L1 + L2 + L3) == multiset(old(L1 + L2 + L3))
      ensures forall t :: t in old(L1) ==> t in L1
      ensures forall t :: t in old(L2) ==>
                (t in L1 <==> threads[t].priority >= 100) && (t in L2 <==> threads[t].priority < 100)
      ensures forall t :: t in old(L3) ==>
                t !in L1 && (t in L2 <==> threads[t].priority >= 50) && (t in L3 <==> threads[t].priority < 50)
      ensures old(BandedQueues()) && AgingStep(age) ==> BandedQueues()
      ensures old(ReadyConsistent()) ==> ReadyConsistent()
      ensures L3 == Kept(age, old(threads), old(L3))
    {
      ghost var th0, o1, o2, o3 := threads, L1, L2, L3;
      threads, L1, L2, L3 := AgingPass(age, threads, L1, L2, L3);
      AgingOutcome(age, th0, o1, o2, o3, threads, L1, L2, L3, current);
    }
  }
}
