/** The queue rebuild done by aging: every queued thread ages once and is filed
    into a fresh L1, L2 or L3 by where it came from and its new priority. The
    rebuild is specified as a fold over the drain order, one thread per step,
    which is what the drain loops of `Scheduling.Scheduler.Aging` compute. */
module Rebuilding {
  import opened Threads
  import opened Comparators
  import opened SortedLists
  import opened Bands

  /** Which old queue a drained thread comes from. */
  datatype Source = FromL1 | FromL2 | FromL3

  /** The state of a rebuild: the thread table and the three new queues. */
  datatype Rebuild = Rebuild(th: Table, n1: seq<ThreadId>, n2: seq<ThreadId>, n3: seq<ThreadId>)

  /** The new queues only hold known threads. */
  predicate Holds(r: Rebuild) {
    Known(r.th, r.n1) && Known(r.th, r.n2) && Known(r.th, r.n3)
  }

  /** New queue `k` (1, 2 or 3) of a rebuild. */
  function Queue(r: Rebuild, k: int): seq<ThreadId> {
    if k == 1 then r.n1 else if k == 2 then r.n2 else r.n3
  }

  /** The new queue a thread from `src` joins once its priority is `p`: an L1
      thread stays in L1, an L2 thread moves up at 100, an L3 thread at 50. */
  function Target(src: Source, p: int): (k: int)
    ensures 1 <= k <= 3
    ensures src == FromL1 ==> k == 1
    ensures src == FromL2 ==> (k == 1 <==> p >= 100) && (k == 2 <==> p < 100)
    ensures src == FromL3 ==> (k == 2 <==> p >= 50) && (k == 3 <==> p < 50)
  {
    match src
    case FromL1 => 1
    case FromL2 => if p >= 100 then 1 else 2
    case FromL3 => if p >= 50 then 2 else 3
  }

  /** One step of a drain loop: `t` ages once and is inserted into the new
      queue its new priority selects (sorted insertion into L1 and L2,
      appending to L3). */
  function AgeInto(age: ThreadInfo -> int, r: Rebuild, t: ThreadId, src: Source): (r': Rebuild)
    requires Holds(r) && t in r.th
    ensures Holds(r') && r'.th.Keys == r.th.Keys
  {
    var th := r.th[t := AgeOne(r.th[t], age)];
    var k := Target(src, th[t].priority);
    if k == 1 then Rebuild(th, Insert(BySJF, th, r.n1, t), r.n2, r.n3)
    else if k == 2 then Rebuild(th, r.n1, Insert(ByPriority, th, r.n2, t), r.n3)
    else Rebuild(th, r.n1, r.n2, r.n3 + [t])
  }

  /** A whole drain loop: the threads of `q`, front first. */
  function AgeAll(age: ThreadInfo -> int, r: Rebuild, q: seq<ThreadId>, src: Source): (r': Rebuild)
    requires Holds(r) && Known(r.th, q)
    ensures Holds(r') && r'.th.Keys == r.th.Keys
    decreases |q|
  {
    if q == [] then r
    else AgeAll(age, AgeInto(age, r, q[0], src), q[1..], src)
  }

  /** The three drain loops of aging in their order, starting from empty queues. */
  function AgedQueues(age: ThreadInfo -> int, th: Table, l1: seq<ThreadId>, l2: seq<ThreadId>, l3: seq<ThreadId>): (r: Rebuild)
    requires Known(th, l1) && Known(th, l2) && Known(th, l3)
    ensures Holds(r) && r.th.Keys == th.Keys
  {
    var r1 := AgeAll(age, Rebuild(th, [], [], []), l1, FromL1);
    var r2 := AgeAll(age, r1, l2, FromL2);
    AgeAll(age, r2, l3, FromL3)
  }

  /** The threads of a rebuild's three queues. */
  function Members(r: Rebuild): seq<ThreadId> {
    r.n1 + r.n2 + r.n3
  }

  /** One step files exactly the drained thread. */
  lemma AgeIntoConserves(age: ThreadInfo -> int, r: Rebuild, t: ThreadId, src: Source)
    requires Holds(r) && t in r.th
    ensures multiset(Members(AgeInto(age, r, t, src))) == multiset(Members(r)) + multiset{t}
  {
    var r' := AgeInto(age, r, t, src);
    MembersCount(r);
    MembersCount(r');
    var th := r.th[t := AgeOne(r.th[t], age)];
    var k := Target(src, th[t].priority);
    if k == 1 {
      assert multiset(r'.n1) == multiset(r.n1) + multiset{t};
    } else if k == 2 {
      assert multiset(r'.n2) == multiset(r.n2) + multiset{t};
    } else {
      assert multiset(r'.n3) == multiset(r.n3) + multiset{t};
    }
  }

  /** The threads of the three queues, counted queue by queue. */
  lemma MembersCount(r: Rebuild)
    ensures multiset(Members(r)) == multiset(r.n1) + multiset(r.n2) + multiset(r.n3)
  {
  }

  /** A drain loop files every drained thread once and loses none. */
  lemma {:induction false} AgeAllConserves(age: ThreadInfo -> int, r: Rebuild, q: seq<ThreadId>, src: Source)
    requires Holds(r) && Known(r.th, q)
    ensures multiset(Members(AgeAll(age, r, q, src))) == multiset(Members(r)) + multiset(q)
    decreases |q|
  {
    if q != [] {
      var r1 := AgeInto(age, r, q[0], src);
      AgeIntoConserves(age, r, q[0], src);
      AgeAllConserves(age, r1, q[1..], src);
      FrontThenRest(multiset(Members(r)), multiset(Members(r1)), multiset(Members(AgeAll(age, r1, q[1..], src))), q);
    }
  }

  /** Adding the front of a list and then the rest adds the whole list. */
  lemma FrontThenRest(a: multiset<ThreadId>, b: multiset<ThreadId>, c: multiset<ThreadId>, q: seq<ThreadId>)
    requires q != [] && b == a + multiset{q[0]} && c == b + multiset(q[1..])
    ensures c == a + multiset(q)
  {
    assert q == [q[0]] + q[1..];
  }

  /** A thread already in a new queue stays in it. */
  lemma AgeIntoKeeps(age: ThreadInfo -> int, r: Rebuild, t: ThreadId, src: Source, x: ThreadId, k: int)
    requires Holds(r) && t in r.th && x in Queue(r, k)
    ensures x in Queue(AgeInto(age, r, t, src), k)
  {
    var th := r.th[t := AgeOne(r.th[t], age)];
    assert x in multiset(Queue(r, k));
    if k == 1 {
      assert x in multiset(Insert(BySJF, th, r.n1, t));
    } else if k == 2 {
      assert x in multiset(Insert(ByPriority, th, r.n2, t));
    }
  }

  /** A thread already in a new queue stays in it for a whole drain loop. */
  lemma {:induction false} AgeAllKeeps(age: ThreadInfo -> int, r: Rebuild, q: seq<ThreadId>, src: Source, x: ThreadId, k: int)
    requires Holds(r) && Known(r.th, q) && x in Queue(r, k)
    ensures x in Queue(AgeAll(age, r, q, src), k)
    decreases |q|
  {
    if q != [] {
      AgeIntoKeeps(age, r, q[0], src, x, k);
      AgeAllKeeps(age, AgeInto(age, r, q[0], src), q[1..], src, x, k);
    }
  }

  /** A drained thread lands in the queue its aged priority selects. */
  lemma {:induction false} AgeAllRoutes(age: ThreadInfo -> int, r: Rebuild, q: seq<ThreadId>, src: Source, x: ThreadId)
    requires Holds(r) && Known(r.th, q) && Distinct(q) && x in q
    ensures x in r.th
    ensures x in Queue(AgeAll(age, r, q, src), Target(src, age(r.th[x])))
    decreases |q|
  {
    var t := q[0];
    var r1 := AgeInto(age, r, t, src);
    DistinctTail(q);
    if x == t {
      AgeIntoFiles(age, r, t, src);
      AgeAllKeeps(age, r1, q[1..], src, x, Target(src, age(r.th[x])));
    } else {
      assert x in q[1..] by {
        assert q == [t] + q[1..];
      }
      AgeAllRoutes(age, r1, q[1..], src, x);
    }
  }

  /** A step files the drained thread in the queue its aged priority selects. */
  lemma AgeIntoFiles(age: ThreadInfo -> int, r: Rebuild, t: ThreadId, src: Source)
    requires Holds(r) && t in r.th
    ensures t in Queue(AgeInto(age, r, t, src), Target(src, age(r.th[t])))
  {
    var th := r.th[t := AgeOne(r.th[t], age)];
    var k := Target(src, age(r.th[t]));
    if k == 1 {
      assert t in multiset(Insert(BySJF, th, r.n1, t));
    } else if k == 2 {
      assert t in multiset(Insert(ByPriority, th, r.n2, t));
    }
  }

  /** A step changes the table only by aging the drained thread. */
  lemma AgeIntoTable(age: ThreadInfo -> int, r: Rebuild, t: ThreadId, src: Source)
    requires Holds(r) && t in r.th
    ensures AgeInto(age, r, t, src).th == r.th[t := AgeOne(r.th[t], age)]
  {
  }

  /** Aging the front thread first and the rest afterwards ages them all. */
  lemma AgedTableFront(th: Table, age: ThreadInfo -> int, t: ThreadId, rest: seq<ThreadId>)
    requires t in th && t !in rest
    ensures AgedTable(th[t := AgeOne(th[t], age)], age, rest) == AgedTable(th, age, [t] + rest)
  {
  }

  /** A drain loop ages every drained thread once and no other thread. */
  lemma {:induction false} AgeAllTable(age: ThreadInfo -> int, r: Rebuild, q: seq<ThreadId>, src: Source)
    requires Holds(r) && Known(r.th, q) && Distinct(q)
    ensures AgeAll(age, r, q, src).th == AgedTable(r.th, age, q)
    decreases |q|
  {
    if q != [] {
      var t := q[0];
      var r1 := AgeInto(age, r, t, src);
      assert q == [t] + q[1..];
      assert multiset(q)[t] <= 1;
      assert t !in multiset(q[1..]);
      DistinctShrink(q, q[1..]);
      AgeAllTable(age, r1, q[1..], src);
      AgeIntoTable(age, r, t, src);
      AgedTableFront(r.th, age, t, q[1..]);
    }
  }

  /** One step keeps the sorted new queues sorted when the drained thread is in
      neither of them. */
  lemma AgeIntoSorted(age: ThreadInfo -> int, r: Rebuild, t: ThreadId, src: Source)
    requires Holds(r) && t in r.th && t !in r.n1 && t !in r.n2
    requires Sorted(BySJF, r.th, r.n1) && Sorted(ByPriority, r.th, r.n2)
    ensures var r' := AgeInto(age, r, t, src);
            Sorted(BySJF, r'.th, r'.n1) && Sorted(ByPriority, r'.th, r'.n2)
  {
    var th := r.th[t := AgeOne(r.th[t], age)];
    assert Known(th, r.n1) && Known(th, r.n2);
    SortedFrame(BySJF, r.th, th, r.n1);
    SortedFrame(ByPriority, r.th, th, r.n2);
    InsertKeepsSorted(BySJF, th, r.n1, t);
    InsertKeepsSorted(ByPriority, th, r.n2, t);
  }

  /** Threads still to be drained are in no new queue after a step. */
  lemma AgeIntoApart(age: ThreadInfo -> int, r: Rebuild, q: seq<ThreadId>, src: Source)
    requires Holds(r) && q != [] && q[0] in r.th && Distinct(q)
    requires forall i :: 0 <= i < |q| ==> q[i] !in r.n1 && q[i] !in r.n2
    ensures var r1 := AgeInto(age, r, q[0], src);
            forall i :: 0 <= i < |q[1..]| ==> q[1..][i] !in r1.n1 && q[1..][i] !in r1.n2
  {
    var t := q[0];
    var r1 := AgeInto(age, r, t, src);
    assert q == [t] + q[1..];
    assert multiset(q)[t] <= 1;
    forall i | 0 <= i < |q[1..]|
      ensures q[1..][i] !in r1.n1 && q[1..][i] !in r1.n2
    {
      var x := q[1..][i];
      assert x == q[i + 1];
      assert x != t by {
        assert x in multiset(q[1..]);
      }
      assert x !in multiset(r.n1) && x !in multiset(r.n2);
      assert x !in multiset(r1.n1) && x !in multiset(r1.n2);
    }
  }

  /** Aging threads that are in no sorted new queue keeps those queues sorted,
      and each insertion keeps them sorted. */
  lemma {:induction false} AgeAllSorted(age: ThreadInfo -> int, r: Rebuild, q: seq<ThreadId>, src: Source)
    requires Holds(r) && Known(r.th, q) && Distinct(q)
    requires forall i :: 0 <= i < |q| ==> q[i] !in r.n1 && q[i] !in r.n2
    requires Sorted(BySJF, r.th, r.n1) && Sorted(ByPriority, r.th, r.n2)
    ensures var r' := AgeAll(age, r, q, src);
            Sorted(BySJF, r'.th, r'.n1) && Sorted(ByPriority, r'.th, r'.n2)
    decreases |q|
  {
    if q != [] {
      var r1 := AgeInto(age, r, q[0], src);
      AgeIntoSorted(age, r, q[0], src);
      AgeIntoApart(age, r, q, src);
      assert q == [q[0]] + q[1..];
      DistinctShrink(q, q[1..]);
      AgeAllSorted(age, r1, q[1..], src);
    }
  }

  /** Aging `a` and then `b`, two lists with no thread in common, ages `a + b`. */
  lemma AgedTableConcat(th: Table, age: ThreadInfo -> int, a: seq<ThreadId>, b: seq<ThreadId>)
    requires Distinct(a + b)
    ensures AgedTable(AgedTable(th, age, a), age, b) == AgedTable(th, age, a + b)
  {
    forall x | x in b
      ensures x !in a
    {
      assert multiset(a + b)[x] <= 1;
      assert x in multiset(b);
    }
  }

  /** Threads not yet drained are in no new queue when the queues so far hold
      exactly the threads already drained. */
  lemma FreshQueue(r: Rebuild, p: seq<ThreadId>, q: seq<ThreadId>)
    requires multiset(Members(r)) == multiset(p) && Distinct(p + q)
    ensures forall i :: 0 <= i < |q| ==> q[i] !in r.n1 && q[i] !in r.n2
  {
    forall i | 0 <= i < |q|
      ensures q[i] !in r.n1 && q[i] !in r.n2
    {
      var x := q[i];
      assert multiset(p + q)[x] <= 1;
      assert x in multiset(q);
      assert x !in multiset(Members(r));
    }
  }

  /** The parts of a duplicate-free concatenation of three queues are
      duplicate-free. */
  lemma DistinctParts(l1: seq<ThreadId>, l2: seq<ThreadId>, l3: seq<ThreadId>)
    requires Distinct(l1 + l2 + l3)
    ensures Distinct(l1) && Distinct(l2) && Distinct(l3) && Distinct(l1 + l2)
  {
    DistinctShrink(l1 + l2 + l3, l1 + l2);
    DistinctShrink(l1 + l2 + l3, l1);
    DistinctShrink(l1 + l2 + l3, l2);
    DistinctShrink(l1 + l2 + l3, l3);
  }

  /** The first two drain loops: what the table and the queues hold after the
      L1 and the L2 drain. */
  lemma FirstStages(age: ThreadInfo -> int, th: Table, l1: seq<ThreadId>, l2: seq<ThreadId>, l3: seq<ThreadId>)
    requires Known(th, l1) && Known(th, l2) && Known(th, l3) && Distinct(l1 + l2 + l3)
    ensures var r1 := AgeAll(age, Rebuild(th, [], [], []), l1, FromL1);
            && r1.th == AgedTable(th, age, l1)
            && multiset(Members(r1)) == multiset(l1)
            && Sorted(BySJF, r1.th, r1.n1) && Sorted(ByPriority, r1.th, r1.n2)
            && Known(r1.th, l2)
            && var r2 := AgeAll(age, r1, l2, FromL2);
               && r2.th == AgedTable(th, age, l1 + l2)
               && multiset(Members(r2)) == multiset(l1 + l2)
               && Sorted(BySJF, r2.th, r2.n1) && Sorted(ByPriority, r2.th, r2.n2)
  {
    DistinctParts(l1, l2, l3);
    var r0 := Rebuild(th, [], [], []);
    AgeAllTable(age, r0, l1, FromL1);
    AgeAllConserves(age, r0, l1, FromL1);
    AgeAllSorted(age, r0, l1, FromL1);
    var r1 := AgeAll(age, r0, l1, FromL1);
    assert Known(r1.th, l2);
    FreshQueue(r1, l1, l2);
    AgeAllTable(age, r1, l2, FromL2);
    AgeAllConserves(age, r1, l2, FromL2);
    AgeAllSorted(age, r1, l2, FromL2);
    AgedTableConcat(th, age, l1, l2);
  }

  /** The table and the queues after all three drain loops. */
  lemma AgedQueuesShape(age: ThreadInfo -> int, th: Table, l1: seq<ThreadId>, l2: seq<ThreadId>, l3: seq<ThreadId>)
    requires Known(th, l1) && Known(th, l2) && Known(th, l3) && Distinct(l1 + l2 + l3)
    ensures var r := AgedQueues(age, th, l1, l2, l3);
            && r.th == AgedTable(th, age, l1 + l2 + l3)
            && multiset(Members(r)) == multiset(l1 + l2 + l3)
            && Distinct(Members(r))
            && Sorted(BySJF, r.th, r.n1) && Sorted(ByPriority, r.th, r.n2)
  {
    FirstStages(age, th, l1, l2, l3);
    var r1 := AgeAll(age, Rebuild(th, [], [], []), l1, FromL1);
    var r2 := AgeAll(age, r1, l2, FromL2);
    assert Known(r2.th, l3);
    FreshQueue(r2, l1 + l2, l3);
    DistinctParts(l1, l2, l3);
    AgeAllTable(age, r2, l3, FromL3);
    AgeAllConserves(age, r2, l3, FromL3);
    AgeAllSorted(age, r2, l3, FromL3);
    AgedTableConcat(th, age, l1 + l2, l3);
    var r := AgeAll(age, r2, l3, FromL3);
    DistinctShrink(l1 + l2 + l3, Members(r));
  }

  /** Placement, step 1 of 4: each queued thread lands in the new queue its
      source queue and its aged priority select (`Target`). */
  lemma AgedQueuesRoutes(age: ThreadInfo -> int, th: Table, l1: seq<ThreadId>, l2: seq<ThreadId>, l3: seq<ThreadId>, x: ThreadId)
    requires Known(th, l1) && Known(th, l2) && Known(th, l3) && Distinct(l1 + l2 + l3)
    requires x in l1 + l2 + l3
    ensures x in th
    ensures var r := AgedQueues(age, th, l1, l2, l3);
            && (x in l1 ==> x in r.n1)
            && (x in l2 ==> x in Queue(r, Target(FromL2, age(th[x]))))
            && (x in l3 ==> x in Queue(r, Target(FromL3, age(th[x]))))
  {
    DistinctParts(l1, l2, l3);
    DistinctApart(l1, l2, l3, x);
    FirstStages(age, th, l1, l2, l3);
    var r0 := Rebuild(th, [], [], []);
    var r1 := AgeAll(age, r0, l1, FromL1);
    var r2 := AgeAll(age, r1, l2, FromL2);
    if x in l1 {
      AgeAllRoutes(age, r0, l1, FromL1, x);
      AgeAllKeeps(age, r1, l2, FromL2, x, 1);
      AgeAllKeeps(age, r2, l3, FromL3, x, 1);
    } else if x in l2 {
      assert r1.th[x] == th[x];
      AgeAllRoutes(age, r1, l2, FromL2, x);
      AgeAllKeeps(age, r2, l3, FromL3, x, Target(FromL2, age(th[x])));
    } else {
      assert x in l3;
      assert r2.th[x] == th[x] by {
        assert x !in l1 + l2;
      }
      AgeAllRoutes(age, r2, l3, FromL3, x);
    }
  }

  /** A thread of three duplicate-free queues sits in only one of them. */
  lemma DistinctApart(l1: seq<ThreadId>, l2: seq<ThreadId>, l3: seq<ThreadId>, t: ThreadId)
    requires Distinct(l1 + l2 + l3)
    ensures t in l1 ==> t !in l2 && t !in l3
    ensures t in l2 ==> t !in l1 && t !in l3
    ensures t in l3 ==> t !in l1 && t !in l2
  {
    assert multiset(l1 + l2 + l3)[t] <= 1;
    assert t in l1 ==> t in multiset(l1);
    assert t in l2 ==> t in multiset(l2);
    assert t in l3 ==> t in multiset(l3);
  }

  /** Placement, step 2 of 4: step 1 plus that the thread is aged once and sits
      in exactly one new queue, stated with the thread's new table entry. */
  lemma AgedQueuesRouted(age: ThreadInfo -> int, th: Table, l1: seq<ThreadId>, l2: seq<ThreadId>, l3: seq<ThreadId>, x: ThreadId)
    requires Known(th, l1) && Known(th, l2) && Known(th, l3) && Distinct(l1 + l2 + l3)
    requires x in l1 + l2 + l3
    ensures var r := AgedQueues(age, th, l1, l2, l3);
            && x in th && r.th[x] == AgeOne(th[x], age)
            && (x in r.n1 ==> x !in r.n2 && x !in r.n3)
            && (x in r.n2 ==> x !in r.n3)
            && (x in l1 ==> x in r.n1)
            && (x in l2 ==> x in Queue(r, Target(FromL2, r.th[x].priority)))
            && (x in l3 ==> x in Queue(r, Target(FromL3, r.th[x].priority)))
  {
    var r := AgedQueues(age, th, l1, l2, l3);
    AgedQueuesRoutes(age, th, l1, l2, l3, x);
    assert Distinct(Members(r)) && r.th[x] == AgeOne(th[x], age) by {
      AgedQueuesShape(age, th, l1, l2, l3);
    }
    DistinctApart(r.n1, r.n2, r.n3, x);
  }

  /** The new queues hold exactly the threads of the old ones. */
  lemma AgedQueuesMembers(age: ThreadInfo -> int, th: Table, l1: seq<ThreadId>, l2: seq<ThreadId>, l3: seq<ThreadId>, x: ThreadId)
    requires Known(th, l1) && Known(th, l2) && Known(th, l3) && Distinct(l1 + l2 + l3)
    ensures x in Members(AgedQueues(age, th, l1, l2, l3)) <==> x in l1 + l2 + l3
  {
    var r := AgedQueues(age, th, l1, l2, l3);
    AgedQueuesShape(age, th, l1, l2, l3);
    assert x in Members(r) <==> x in multiset(Members(r));
  }

  /** Placement, step 3 of 4, the statement in the code's own terms: where
      aging files each queued thread, by the aged priority: an L1 thread
      stays in L1; an L2 thread goes to L1 exactly when its priority reached
      100 and stays in L2 otherwise; an L3 thread goes to L2 exactly when its
      priority reached 50 and stays in L3 otherwise. No thread is in two
      queues. */
  lemma AgedQueuesPlaces(age: ThreadInfo -> int, th: Table, l1: seq<ThreadId>, l2: seq<ThreadId>, l3: seq<ThreadId>, x: ThreadId)
    requires Known(th, l1) && Known(th, l2) && Known(th, l3) && Distinct(l1 + l2 + l3)
    ensures var r := AgedQueues(age, th, l1, l2, l3);
            && (x in l1 ==> x in r.n1 && x !in r.n2 && x !in r.n3)
            && (x in l2 ==>
                  (x !in r.n3
                   && (x in r.n1 <==> r.th[x].priority >= 100)
                   && (x in r.n2 <==> r.th[x].priority < 100)))
            && (x in l3 ==>
                  (x !in r.n1
                   && (x in r.n2 <==> r.th[x].priority >= 50)
                   && (x in r.n3 <==> r.th[x].priority < 50)))
            && (x in Members(r) <==> x in l1 + l2 + l3)
  {
    AgedQueuesMembers(age, th, l1, l2, l3, x);
    if x in l1 + l2 + l3 {
      AgedQueuesRouted(age, th, l1, l2, l3, x);
    }
  }

  /** When every queued thread lay in its queue's band and aging raises a
      priority by at most one band, every thread lies in its new queue's band
      after the rebuild. */
  lemma AgedQueuesBanded(age: ThreadInfo -> int, th: Table, l1: seq<ThreadId>, l2: seq<ThreadId>, l3: seq<ThreadId>)
    requires Known(th, l1) && Known(th, l2) && Known(th, l3) && Distinct(l1 + l2 + l3)
    requires Banded(th, l1, l2, l3) && AgingStep(age)
    ensures var r := AgedQueues(age, th, l1, l2, l3);
            Banded(r.th, r.n1, r.n2, r.n3)
  {
    var r := AgedQueues(age, th, l1, l2, l3);
    AgedQueuesShape(age, th, l1, l2, l3);
    forall x | x in Members(r)
      ensures x in r.n1 ==> InL1Band(r.th[x].priority)
      ensures x in r.n2 ==> InL2Band(r.th[x].priority)
      ensures x in r.n3 ==> InL3Band(r.th[x].priority)
    {
      AgedQueuesPlaces(age, th, l1, l2, l3, x);
      DistinctApart(l1, l2, l3, x);
      AgingStepBands(age, th[x]);
      assert r.th[x] == AgeOne(th[x], age);
    }
  }

  /** Aging changes only priorities: every queued thread keeps its status. */
  lemma AgedQueuesStatus(age: ThreadInfo -> int, th: Table, l1: seq<ThreadId>, l2: seq<ThreadId>, l3: seq<ThreadId>, x: ThreadId)
    requires Known(th, l1) && Known(th, l2) && Known(th, l3) && Distinct(l1 + l2 + l3)
    requires x in th
    ensures var r := AgedQueues(age, th, l1, l2, l3);
            x in r.th && r.th[x].status == th[x].status
            && (x !in l1 + l2 + l3 ==> r.th[x] == th[x])
  {
    AgedQueuesShape(age, th, l1, l2, l3);
  }

  /** Placement, step 4 of 4: `AgedQueuesPlaces` for every thread at once, the
      form `Scheduling.AgingOutcome` passes on to `Scheduler.Aging`. */
  lemma AgedQueuesPlacement(age: ThreadInfo -> int, th: Table, l1: seq<ThreadId>, l2: seq<ThreadId>, l3: seq<ThreadId>)
    requires Known(th, l1) && Known(th, l2) && Known(th, l3) && Distinct(l1 + l2 + l3)
    ensures var r := AgedQueues(age, th, l1, l2, l3);
            && (forall t :: t in l1 ==> t in r.n1)
            && (forall t :: t in l2 ==>
                  (t in r.n1 <==> r.th[t].priority >= 100) && (t in r.n2 <==> r.th[t].priority < 100))
            && (forall t :: t in l3 ==>
                  t !in r.n1 && (t in r.n2 <==> r.th[t].priority >= 50) && (t in r.n3 <==> r.th[t].priority < 50))
  {
    var r := AgedQueues(age, th, l1, l2, l3);
    forall t
      ensures t in l1 ==> t in r.n1
      ensures t in l2 ==> (t in r.n1 <==> r.th[t].priority >= 100) && (t in r.n2 <==> r.th[t].priority < 100)
      ensures t in l3 ==> t !in r.n1 && (t in r.n2 <==> r.th[t].priority >= 50) && (t in r.n3 <==> r.th[t].priority < 50)
    {
      AgedQueuesPlaces(age, th, l1, l2, l3, t);
    }
  }

  /** The threads of `q` whose aged priority stays below 50, in the order of
      `q`: what an L3 drain leaves in L3. */
  function Kept(age: ThreadInfo -> int, th: Table, q: seq<ThreadId>): (r: seq<ThreadId>)
    requires Known(th, q)
    ensures forall x :: x in r <==> x in q && age(th[x]) < 50
    decreases |q|
  {
    if q == [] then []
    else (if age(th[q[0]]) < 50 then [q[0]] else []) + Kept(age, th, q[1..])
  }

  /** `Kept` only reads the entries of the threads it filters. */
  lemma {:induction false} KeptFrame(age: ThreadInfo -> int, th: Table, th': Table, q: seq<ThreadId>)
    requires Known(th, q) && Known(th', q)
    requires forall i :: 0 <= i < |q| ==> th'[q[i]] == th[q[i]]
    ensures Kept(age, th', q) == Kept(age, th, q)
    decreases |q|
  {
    if q != [] {
      KeptFrame(age, th, th', q[1..]);
    }
  }

  /** The L1 and L2 drains never touch the new L3. */
  lemma {:induction false} AgeAllLeavesL3(age: ThreadInfo -> int, r: Rebuild, q: seq<ThreadId>, src: Source)
    requires Holds(r) && Known(r.th, q) && src != FromL3
    ensures AgeAll(age, r, q, src).n3 == r.n3
    decreases |q|
  {
    if q != [] {
      AgeAllLeavesL3(age, AgeInto(age, r, q[0], src), q[1..], src);
    }
  }

  /** The L3 drain appends to the new L3 exactly the threads it keeps there,
      in drain order. */
  lemma {:induction false} AgeAllKept(age: ThreadInfo -> int, r: Rebuild, q: seq<ThreadId>)
    requires Holds(r) && Known(r.th, q) && Distinct(q)
    ensures AgeAll(age, r, q, FromL3).n3 == r.n3 + Kept(age, r.th, q)
    decreases |q|
  {
    if q != [] {
      var t, rest := q[0], q[1..];
      var r1 := AgeInto(age, r, t, FromL3);
      AgeIntoL3(age, r, t);
      DistinctTail(q);
      AgeAllKept(age, r1, rest);
      forall i | 0 <= i < |rest|
        ensures r1.th[rest[i]] == r.th[rest[i]]
      {
        AgeIntoOthers(age, r, t, FromL3, rest[i]);
      }
      KeptFrame(age, r.th, r1.th, rest);
      KeptStep(age, r.th, q, r.n3, r1.n3, AgeAll(age, r1, rest, FromL3).n3);
    }
  }

  /** Keeping the front (or not) and then the rest keeps the whole list. */
  lemma KeptStep(age: ThreadInfo -> int, th: Table, q: seq<ThreadId>, n: seq<ThreadId>, n': seq<ThreadId>, n'': seq<ThreadId>)
    requires q != [] && Known(th, q)
    requires n' == n + (if age(th[q[0]]) < 50 then [q[0]] else [])
    requires n'' == n' + Kept(age, th, q[1..])
    ensures n'' == n + Kept(age, th, q)
  {
  }


  /** One step of the L3 drain appends the thread to the new L3 iff its aged
      priority stays below 50. */
  lemma AgeIntoL3(age: ThreadInfo -> int, r: Rebuild, t: ThreadId)
    requires Holds(r) && t in r.th
    ensures AgeInto(age, r, t, FromL3).n3 == r.n3 + (if age(r.th[t]) < 50 then [t] else [])
  {
  }

  /** One step only rewrites the entry of the drained thread. */
  lemma AgeIntoOthers(age: ThreadInfo -> int, r: Rebuild, t: ThreadId, src: Source, x: ThreadId)
    requires Holds(r) && t in r.th && x in r.th && x != t
    ensures AgeInto(age, r, t, src).th[x] == r.th[x]
  {
  }

  /** The new L3 is the old L3 without the threads aging promoted, in the old
      order: L3 stays first come, first served across an aging pass. */
  lemma AgedQueuesL3(age: ThreadInfo -> int, th: Table, l1: seq<ThreadId>, l2: seq<ThreadId>, l3: seq<ThreadId>)
    requires Known(th, l1) && Known(th, l2) && Known(th, l3) && Distinct(l1 + l2 + l3)
    ensures AgedQueues(age, th, l1, l2, l3).n3 == Kept(age, th, l3)
  {
    FirstStages(age, th, l1, l2, l3);
    DistinctParts(l1, l2, l3);
    var r0 := Rebuild(th, [], [], []);
    var r1 := AgeAll(age, r0, l1, FromL1);
    var r2 := AgeAll(age, r1, l2, FromL2);
    AgeAllLeavesL3(age, r0, l1, FromL1);
    AgeAllLeavesL3(age, r1, l2, FromL2);
    AgeAllKept(age, r2, l3);
    forall i | 0 <= i < |l3|
      ensures r2.th[l3[i]] == th[l3[i]]
    {
      DistinctApart(l1, l2, l3, l3[i]);
    }
    KeptFrame(age, th, r2.th, l3);
  }
}
