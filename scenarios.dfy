/** Small scheduling histories on concrete threads, each stating the outcome
    the scheduler's rules fix for it. Thread 0 is the running thread. */
module Scenarios {
  import opened Threads
  import opened Comparators
  import opened SortedLists
  import opened Bands
  import opened Scheduling

  /** A new scheduler over `table` with thread 0 running. */
  method Fresh(table: Table) returns (s: Scheduler)
    requires 0 in table
    ensures fresh(s) && s.Valid() && s.BandedQueues() && s.ReadyConsistent()
    ensures s.L1 == [] && s.L2 == [] && s.L3 == [] && s.toBeDestroyed == None
    ensures s.threads == table && s.current == 0
  {
    s := new Scheduler(table, 0);
  }

  /** A new scheduler with thread 0 (estimated burst 50) running and thread `t`
      of priority in [100,149] admitted: `t` is the only thread of L1. */
  method AdmittedToL1(t: ThreadId, info: ThreadInfo) returns (s: Scheduler)
    requires t != 0 && InL1Band(info.priority)
    ensures fresh(s) && s.Valid() && s.current == 0
    ensures 0 in s.threads && s.threads[0] == ThreadInfo(10, 50, 0, Running)
    ensures t in s.threads && s.threads[t] == info.(status := Ready)
    ensures s.L1 == [t] && s.L2 == [] && s.L3 == []
  {
    s := Fresh(map[0 := ThreadInfo(10, 50, 0, Running), t := info]);
    s.ReadyToRun(t);
    InsertIntoEmpty(BySJF, s.threads, t);
  }

  /** A new scheduler with thread 0 (estimated burst 50) running and thread `t`
      of priority in [50,99] admitted: `t` is the only thread of L2. */
  method AdmittedToL2(t: ThreadId, info: ThreadInfo) returns (s: Scheduler)
    requires t != 0 && InL2Band(info.priority)
    ensures fresh(s) && s.Valid() && s.current == 0
    ensures 0 in s.threads && s.threads[0] == ThreadInfo(10, 50, 0, Running)
    ensures t in s.threads && s.threads[t] == info.(status := Ready)
    ensures s.L1 == [] && s.L2 == [t] && s.L3 == []
  {
    s := Fresh(map[0 := ThreadInfo(10, 50, 0, Running), t := info]);
    s.ReadyToRun(t);
    InsertIntoEmpty(ByPriority, s.threads, t);
  }

  /** A new scheduler with thread 0 (estimated burst 50) running and thread `t`
      of priority in [0,49] admitted: `t` is the only thread of L3. */
  method AdmittedToL3(t: ThreadId, info: ThreadInfo) returns (s: Scheduler)
    requires t != 0 && InL3Band(info.priority)
    ensures fresh(s) && s.Valid() && s.current == 0
    ensures 0 in s.threads && s.threads[0] == ThreadInfo(10, 50, 0, Running)
    ensures t in s.threads && s.threads[t] == info.(status := Ready)
    ensures s.L1 == [] && s.L2 == [] && s.L3 == [t]
  {
    s := Fresh(map[0 := ThreadInfo(10, 50, 0, Running), t := info]);
    s.ReadyToRun(t);
  }

  /** Two L1 threads leave in the order of their remaining estimate, not of
      their arrival: thread 2 (20 estimated, 5 used) before thread 1 (30, 0). */
  method ShortestFirst() returns (first: Option<ThreadId>, second: Option<ThreadId>)
    ensures first == Some(2) && second == Some(1)
  {
    var s := Fresh(map[0 := ThreadInfo(10, 50, 0, Running),
                       1 := ThreadInfo(120, 30, 0, Blocked),
                       2 := ThreadInfo(110, 20, 5, Blocked)]);
    s.ReadyToRun(1);
    InsertIntoEmpty(BySJF, s.threads, 1);
    s.ReadyToRun(2);
    InsertAhead(BySJF, s.threads, 1, 2);
    first := s.FindNextToRun();
    second := s.FindNextToRun();
  }

  /** Admits thread 3 (priority 70) to a new scheduler; it goes to L2. */
  method OneInL2() returns (s: Scheduler)
    ensures fresh(s) && s.Valid() && s.L1 == [] && s.L2 == [3] && s.L3 == []
    ensures 4 in s.threads && s.threads[4] == ThreadInfo(90, 10, 0, Blocked)
    ensures 3 in s.threads && s.threads[3].priority == 70
  {
    s := Fresh(map[0 := ThreadInfo(10, 50, 0, Running),
                   3 := ThreadInfo(70, 10, 0, Blocked),
                   4 := ThreadInfo(90, 10, 0, Blocked)]);
    s.ReadyToRun(3);
    InsertIntoEmpty(ByPriority, s.threads, 3);
  }

  /** Then admits thread 4 (priority 90): it goes to L2 behind thread 3. */
  method TwoInL2() returns (s: Scheduler)
    ensures fresh(s) && s.Valid() && s.L1 == [] && s.L2 == [3, 4] && s.L3 == []
  {
    s := OneInL2();
    s.ReadyToRun(4);
    InsertAhead(ByPriority, s.threads, 3, 4);
  }

  /** L2 is ascending under PriorityCompare: of two L2 threads the one with
      the lower priority leaves first. */
  method LowerPriorityFirstInL2() returns (first: Option<ThreadId>, second: Option<ThreadId>)
    ensures first == Some(3) && second == Some(4)
  {
    var s := TwoInL2();
    first := s.FindNextToRun();
    second := s.FindNextToRun();
  }

  /** L3 is first come, first served, whatever the priorities. */
  method ArrivalOrderInL3() returns (first: Option<ThreadId>, second: Option<ThreadId>)
    ensures first == Some(5) && second == Some(6)
  {
    var s := Fresh(map[0 := ThreadInfo(10, 50, 0, Running),
                       5 := ThreadInfo(10, 10, 0, Blocked),
                       6 := ThreadInfo(40, 10, 0, Blocked)]);
    s.ReadyToRun(5);
    s.ReadyToRun(6);
    first := s.FindNextToRun();
    second := s.FindNextToRun();
  }

  /** L1 is served before L3 whatever the arrival order; with all queues
      empty there is no thread to run. */
  method LevelsInOrder() returns (a: Option<ThreadId>, b: Option<ThreadId>, c: Option<ThreadId>)
    ensures a == Some(1) && b == Some(5) && c == None
  {
    var s := Fresh(map[0 := ThreadInfo(10, 50, 0, Running),
                       1 := ThreadInfo(120, 30, 0, Blocked),
                       5 := ThreadInfo(10, 10, 0, Blocked)]);
    s.ReadyToRun(5);
    s.ReadyToRun(1);
    InsertIntoEmpty(BySJF, s.threads, 1);
    a := s.FindNextToRun();
    b := s.FindNextToRun();
    c := s.FindNextToRun();
  }

  /** A ready L1 thread with a shorter estimate than the running thread asks
      for preemption, and peeking at it leaves L1 as it was. */
  method PreemptByShorter() returns (preempt: bool, l1: seq<ThreadId>)
    ensures preempt && l1 == [1]
  {
    var s := AdmittedToL1(1, ThreadInfo(120, 20, 0, Blocked));
    preempt := s.CheckPreemptive();
    l1 := s.L1;
  }

  /** A ready L1 thread with a longer estimate than the running thread does
      not ask for preemption. */
  method NoPreemptByLonger() returns (preempt: bool)
    ensures !preempt
  {
    var s := AdmittedToL1(2, ThreadInfo(120, 80, 0, Blocked));
    preempt := s.CheckPreemptive();
  }

  /** A finishing thread is destroyed once, by the first check after the
      switch, and never again. */
  method FinishThenReclaim() returns (outgoing: ThreadId, first: Option<ThreadId>, second: Option<ThreadId>)
    ensures outgoing == 0 && first == Some(0) && second == None
  {
    var s := Fresh(map[0 := ThreadInfo(10, 50, 0, Running),
                       1 := ThreadInfo(120, 20, 0, Blocked)]);
    outgoing := s.Run(1, true);
    first := s.RunResume();
    second := s.CheckToBeDestroyed();
  }

  /** The aging adjustment of these scenarios: ten points, capped at 149. */
  function PlusTen(t: ThreadInfo): int {
    if t.priority + 10 > 149 then 149 else t.priority + 10
  }

  /** Under an aging step of +10, an L3 thread at priority 45 reaches 55 and
      moves to L2. */
  method AgingPromotesFromL3() returns (inL2: bool)
    ensures inL2
  {
    var s := AdmittedToL3(5, ThreadInfo(45, 10, 0, Blocked));
    s.Aging(PlusTen);
    inL2 := 5 in s.L2;
  }

  /** Under an aging step of +10, an L2 thread at priority 95 reaches 105 and
      moves to L1. */
  method AgingPromotesFromL2() returns (inL1: bool)
    ensures inL1
  {
    var s := AdmittedToL2(3, ThreadInfo(95, 10, 0, Blocked));
    s.Aging(PlusTen);
    inL1 := 3 in s.L1;
  }
}
