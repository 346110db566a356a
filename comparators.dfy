/** The three comparison functions the ready queues are built with.
    A comparator returns a negative number when its first argument must
    go before its second. */
module Comparators {
  import opened Threads

  /** The remaining-time estimate that shortest-job-first ranks by. */
  function Remaining(t: ThreadInfo): int {
    t.approxBurst - t.burst
  }

  /** Orders by remaining-time estimate: negative when `a` has less left to run. */
  function SJFCompare(a: ThreadInfo, b: ThreadInfo): (r: int)
    ensures -1 <= r <= 1
    ensures r < 0 <==> Remaining(a) < Remaining(b)
    ensures r == 0 <==> Remaining(a) == Remaining(b)
  {
    if Remaining(a) == Remaining(b) then 0
    else if Remaining(a) > Remaining(b) then 1 else -1
  }

  /** Orders by priority: positive when `a` has the higher priority, so under
      ascending insertion the lower priority goes first. */
  function PriorityCompare(a: ThreadInfo, b: ThreadInfo): (r: int)
    ensures -1 <= r <= 1
    ensures r < 0 <==> a.priority < b.priority
    ensures r == 0 <==> a.priority == b.priority
  {
    if a.priority == b.priority then 0
    else if a.priority > b.priority then 1 else -1
  }

  /** Never asks a new element to go ahead of an existing one. */
  function FIFOCompare(a: ThreadInfo, b: ThreadInfo): (r: int)
    ensures r > 0
  {
    1
  }

  /** One of the three comparators. L1 is built with SJFCompare and L2 with
      PriorityCompare; FIFOCompare is given to no list, since L3 is a plain list
      that is appended to (`SortedLists.InsertByArrivalAppends` shows the two agree). */
  datatype Order = BySJF | ByPriority | ByArrival

  /** The integer a comparator ranks by (arrival order ranks every thread alike). */
  function Key(o: Order, t: ThreadInfo): int {
    match o
    case BySJF => Remaining(t)
    case ByPriority => t.priority
    case ByArrival => 0
  }

  /** The comparator of a queue. For every order, "goes first" means "smaller key";
      for SJF and priority, 0 means "equal key". */
  function Compare(o: Order, a: ThreadInfo, b: ThreadInfo): (r: int)
    ensures -1 <= r <= 1
    ensures r < 0 <==> Key(o, a) < Key(o, b)
    ensures o != ByArrival ==> (r == 0 <==> Key(o, a) == Key(o, b))
  {
    match o
    case BySJF => SJFCompare(a, b)
    case ByPriority => PriorityCompare(a, b)
    case ByArrival => FIFOCompare(a, b)
  }

  /** SJF and priority comparison are consistent three-way comparisons:
      swapping the arguments flips the sign. */
  lemma CompareAntisymmetric(o: Order, a: ThreadInfo, b: ThreadInfo)
    requires o != ByArrival
    ensures Compare(o, a, b) == -Compare(o, b, a)
  {
  }

  /** FIFOCompare is not a three-way comparison: it answers 1 both ways. */
  lemma FIFOCompareNotAntisymmetric(a: ThreadInfo, b: ThreadInfo)
    ensures Compare(ByArrival, a, b) == Compare(ByArrival, b, a) > 0
  {
  }

  /** A comparator looks only at the keys of its arguments. */
  lemma CompareByKeys(o: Order, a: ThreadInfo, b: ThreadInfo, a': ThreadInfo, b': ThreadInfo)
    requires Key(o, a) == Key(o, a') && Key(o, b) == Key(o, b')
    ensures Compare(o, a, b) == Compare(o, a', b')
  {
  }
}
