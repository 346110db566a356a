/** Thread handles and the scheduling metadata the scheduler reads and writes.
    A thread is referred to by its id; its metadata lives in a table owned by
    the kernel (see `Scheduling.Scheduler.threads`). */
module Threads {

  type ThreadId = int

  datatype Status = Ready | Running | Blocked | Finished

  /** The metadata of one thread that the scheduler consults:
      its priority (meaningful range [0,149]), the estimated length of its
      CPU burst, the ticks already used in the current burst, and its status. */
  datatype ThreadInfo = ThreadInfo(priority: int, approxBurst: int, burst: int, status: Status)

  datatype Option<T> = None | Some(value: T)

  /** The effect of `Thread::aging()` on one thread: its priority becomes
      `age` of its metadata; nothing else about the thread changes. */
  function AgeOne(t: ThreadInfo, age: ThreadInfo -> int): (r: ThreadInfo)
    ensures r.priority == age(t)
    ensures r.approxBurst == t.approxBurst && r.burst == t.burst && r.status == t.status
  {
    t.(priority := age(t))
  }
}
