/**
 * The records the JVM's thread-management interface hands to thread-scope:
 * a snapshot of one thread (`java.lang.management.ThreadInfo`) together with
 * the monitors and synchronizers it holds. The arrays the JVM returns are
 * never null, so they are plain sequences here; the lock a thread waits on
 * may be absent.
 */
module Management {
  import opened Common

  /** `Thread.State`, shared by the JVM record and thread-scope's own record. */
  datatype ThreadState = NEW | RUNNABLE | BLOCKED | WAITING | TIMED_WAITING | TERMINATED

  /** `Thread.State.name()` / `toString()`. */
  function StateName(s: ThreadState): (r: string)
  {
    match s
    case NEW => "NEW"
    case RUNNABLE => "RUNNABLE"
    case BLOCKED => "BLOCKED"
    case WAITING => "WAITING"
    case TIMED_WAITING => "TIMED_WAITING"
    case TERMINATED => "TERMINATED"
  }

  /** `Thread.State.valueOf(name)`: the state a name denotes, if any. */
  function StateOf(name: string): (r: Option<ThreadState>)
  {
    if name == "NEW" then Some(NEW)
    else if name == "RUNNABLE" then Some(RUNNABLE)
    else if name == "BLOCKED" then Some(BLOCKED)
    else if name == "WAITING" then Some(WAITING)
    else if name == "TIMED_WAITING" then Some(TIMED_WAITING)
    else if name == "TERMINATED" then Some(TERMINATED)
    else None
  }

  /** Every state has a distinct name, and `valueOf` reads it back. */
  lemma StateNameRoundTrip(s: ThreadState)
    ensures StateOf(StateName(s)) == Some(s)
  {
  }

  /** Names that denote no state are refused. */
  lemma StateOfOnlyNames(name: string)
    ensures StateOf(name).Some? <==> exists s :: StateName(s) == name
  {
    if StateOf(name).Some? {
      assert StateName(StateOf(name).value) == name;
    }
  }

  /**
   * One `StackTraceElement`: the declaring class and the text `toString`
   * prints for it (the method, file and line are only ever used through that text).
   */
  datatype StackFrame = StackFrame(className: string, text: string)

  /** `java.lang.management.MonitorInfo`. */
  datatype RawMonitor = RawMonitor(
    className: string,
    identityHashCode: int,
    lockedStackDepth: int,
    lockedStackFrame: Option<StackFrame>)

  /** `java.lang.management.LockInfo`. */
  datatype RawLock = RawLock(className: string, identityHashCode: int)

  /**
   * `java.lang.management.ThreadInfo`. `lockName` is present exactly when
   * the thread waits on a lock (`getLockInfo() != null`); `lockOwnerId` is
   * -1 when that lock has no owner.
   */
  datatype RawThread = RawThread(
    id: int,
    name: string,
    state: ThreadState,
    isDaemon: bool,
    priority: int,
    lockName: Option<string>,
    lockOwnerId: int,
    lockOwnerName: Option<string>,
    inNative: bool,
    suspended: bool,
    stackTrace: seq<StackFrame>,
    lockedMonitors: seq<RawMonitor>,
    lockedSynchronizers: seq<RawLock>)

  /**
   * What `ThreadMXBean` answers during one deadlock check: the ids
   * `findDeadlockedThreads` and `findMonitorDeadlockedThreads` report (absent
   * when the JVM returns null), whether monitor usage is supported, and the
   * live threads, by id, that each of the two `getThreadInfo` calls reads:
   * `live` for the deadlocked ids, `monitorLive` for the monitor-deadlocked
   * ids. Threads may die between the two calls, and each call may throw
   * instead.
   */
  datatype Jvm = Jvm(
    deadlocked: Fetch<Option<seq<int>>>,
    monitorSupported: Fetch<bool>,
    monitorDeadlocked: Fetch<Option<seq<int>>>,
    live: Fetch<map<int, RawThread>>,
    monitorLive: Fetch<map<int, RawThread>>)

  /**
   * `getThreadInfo(ids)` against the thread table `live`: one entry per
   * requested id, in request order, holding that thread's record, and null
   * for a thread that is no longer alive.
   */
  function ThreadInfos(live: Fetch<map<int, RawThread>>, ids: seq<int>): (r: Fetch<seq<Option<RawThread>>>)
    ensures r.Threw? <==> live.Threw?
    ensures r.Ok? ==> |r.value| == |ids|
    ensures r.Ok? ==> forall i :: 0 <= i < |ids| ==>
      (ids[i] in live.value ==> r.value[i] == Some(live.value[ids[i]])) &&
      (ids[i] !in live.value ==> r.value[i] == None)
  {
    match live
    case Threw => Threw
    case Ok(table) =>
      Ok(seq(|ids|, i requires 0 <= i < |ids| => if ids[i] in table then Some(table[ids[i]]) else None))
  }

  /**
   * `getThreadInfo(getAllThreadIds(), maxDepth)`, given the records the JVM
   * hands out at each depth: a negative depth is refused with an
   * `IllegalArgumentException`.
   */
  function ThreadDump(records: int -> seq<Option<RawThread>>, maxDepth: int): (r: Fetch<seq<Option<RawThread>>>)
  {
    if maxDepth < 0 then Threw else Ok(records(maxDepth))
  }
}
