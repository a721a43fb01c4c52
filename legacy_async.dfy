/**
 * The legacy `AsyncThreadDetector`: static helpers that decide whether a
 * thread is async (any one signal suffices), categorise it, and count the
 * async threads of a list by state. The searches are loops that return at
 * the first hit.
 */
module LegacyAsync {
  import opened Common
  import opened Management
  import opened AsyncNames
  import LegacyThreadInfo
  import CoreThreadInfo
  import CoreAsync
  import Detection

  /** The legacy `AsyncThreadType`, which has no `UNKNOWN`. */
  datatype AsyncThreadType =
    COMPLETABLE_FUTURE | REACTIVE_STREAMS | THREAD_POOL | WEB_SERVER | SCHEDULED_TASK | OTHER_ASYNC

  /** `type.name()`, the text the monitor stores in a record. */
  function TypeName(c: AsyncThreadType): (s: string)
  {
    match c
    case COMPLETABLE_FUTURE => "COMPLETABLE_FUTURE"
    case REACTIVE_STREAMS => "REACTIVE_STREAMS"
    case THREAD_POOL => "THREAD_POOL"
    case WEB_SERVER => "WEB_SERVER"
    case SCHEDULED_TASK => "SCHEDULED_TASK"
    case OTHER_ASYNC => "OTHER_ASYNC"
  }

  /** Distinct types have distinct names, so the stored text identifies the type. */
  lemma TypeNameInjective(a: AsyncThreadType, b: AsyncThreadType)
    requires TypeName(a) == TypeName(b)
    ensures a == b
  {
  }

  /** The same type of the new core. */
  function ToCore(c: AsyncThreadType): (r: CoreThreadInfo.AsyncThreadType)
    ensures r != CoreThreadInfo.UNKNOWN
  {
    match c
    case COMPLETABLE_FUTURE => CoreThreadInfo.COMPLETABLE_FUTURE
    case REACTIVE_STREAMS => CoreThreadInfo.REACTIVE_STREAMS
    case THREAD_POOL => CoreThreadInfo.THREAD_POOL
    case WEB_SERVER => CoreThreadInfo.WEB_SERVER
    case SCHEDULED_TASK => CoreThreadInfo.SCHEDULED_TASK
    case OTHER_ASYNC => CoreThreadInfo.OTHER_ASYNC
  }

  // isAsyncThread

  /**
   * The thread shows an async signal: its name matches the pattern or
   * contains a known name, or a frame of its stack (when there is one) is of
   * an async class.
   */
  predicate AsyncSigns(name: string, stackTrace: Option<seq<StackFrame>>)
  {
    PatternMatch(name) || KnownName(name) ||
    (stackTrace.Some? && exists i :: 0 <= i < |stackTrace.value| && IsAsyncClass(stackTrace.value[i].className))
  }

  /**
   * Both `isAsyncThread` overloads: the legacy record passes its name and
   * its stack, which may be null; the JVM record passes its name and its
   * stack array. The known names are tried in list order, which does not
   * change the answer.
   */
  method IsAsyncThread(name: string, stackTrace: Option<seq<StackFrame>>) returns (b: bool)
    ensures b == AsyncSigns(name, stackTrace)
  {
    if PatternMatch(name) {
      return true;
    }
    b := AnyContained(name, KNOWN_NAMES);
    if b {
      return true;
    }
    if stackTrace.Some? {
      b := AnyFrameContainsAny(stackTrace.value, ASYNC_CLASSES);
      if b {
        return true;
      }
    }
    return false;
  }

  /** The loop over the known names: the first one the name contains ends it. */
  method AnyContained(name: string, subs: seq<string>) returns (b: bool)
    ensures b == ContainsAny(name, subs)
  {
    for i := 0 to |subs|
      invariant forall k :: 0 <= k < i ==> !Contains(name, subs[k])
    {
      if Contains(name, subs[i]) {
        ContainsAnyAt(name, subs, i);
        return true;
      }
    }
    ContainsAnyIff(name, subs);
    return false;
  }

  /** The loop over the stack: the first frame of an async class ends it. */
  method AnyFrameContainsAny(trace: seq<StackFrame>, frags: seq<string>) returns (b: bool)
    ensures b <==> exists i :: 0 <= i < |trace| && ContainsAny(trace[i].className, frags)
  {
    for i := 0 to |trace|
      invariant forall k :: 0 <= k < i ==> !ContainsAny(trace[k].className, frags)
    {
      if ContainsAny(trace[i].className, frags) {
        return true;
      }
    }
    return false;
  }

  /** The record overload on a converted JVM record agrees with the JVM overload. */
  lemma OverloadsAgree(raw: RawThread, cpuTime: int, userTime: int, now: int)
    ensures var t := LegacyThreadInfo.Convert(raw, cpuTime, userTime, now);
      AsyncSigns(t.name, t.stackTrace) == AsyncSigns(raw.name, Some(raw.stackTrace))
  {
  }

  /**
   * The legacy test is the new core's score being positive: any single
   * signal makes a thread async here, whatever the new detector's threshold.
   */
  lemma AsyncExactlyWhenScored(name: string, trace: seq<StackFrame>)
    ensures AsyncSigns(name, Some(trace)) <==> CoreAsync.Confidence(name, trace) > 0
  {
  }

  /** Whatever the threshold, a thread the new detector finds async is async here. */
  lemma CoreAsyncIsLegacyAsync(d: Detection.DetectorSettings, t: CoreThreadInfo.ThreadInfo, now: int)
    requires d.confidenceThreshold > 0
    requires CoreAsync.Detect(d, t, now).isAsync
    ensures AsyncSigns(t.name, Some(t.stackTrace))
  {
    AsyncExactlyWhenScored(t.name, t.stackTrace);
  }

  // categorizeAsyncThread

  /** `containsClass`: the first frame whose class name contains `className` ends the search. */
  method ContainsClass(stackTrace: seq<StackFrame>, className: string) returns (b: bool)
    ensures b == AnyFrame(stackTrace, className)
  {
    for i := 0 to |stackTrace|
      invariant forall k :: 0 <= k < i ==> !Contains(stackTrace[k].className, className)
    {
      if Contains(stackTrace[i].className, className) {
        return true;
      }
    }
    return false;
  }

  /** The legacy thread-pool test, which also accepts "ForkJoinPool". */
  predicate PoolSigns(name: string)
  {
    Contains(name, "pool") || Contains(name, "worker") || Contains(name, "ForkJoinPool")
  }

  /** The category `categorizeAsyncThread` returns: the tests in order, first hit wins. */
  function Category(name: string, trace: seq<StackFrame>): (r: AsyncThreadType)
  {
    if CoreAsync.FutureSigns(name, trace) then COMPLETABLE_FUTURE
    else if CoreAsync.ReactiveSigns(name, trace) then REACTIVE_STREAMS
    else if PoolSigns(name) then THREAD_POOL
    else if CoreAsync.ServerSigns(name, trace) then WEB_SERVER
    else if CoreAsync.ScheduledSigns(name, trace) then SCHEDULED_TASK
    else OTHER_ASYNC
  }

  /**
   * `categorizeAsyncThread` on a JVM record's name and stack (the JVM
   * never reports a null stack), each test evaluated left to right.
   */
  method Categorize(name: string, stackTrace: seq<StackFrame>) returns (r: AsyncThreadType)
    ensures r == Category(name, stackTrace)
  {
    var hit;
    if Contains(name, "CompletableFuture") {
      return COMPLETABLE_FUTURE;
    }
    hit := ContainsClass(stackTrace, "CompletableFuture");
    if hit {
      return COMPLETABLE_FUTURE;
    }
    if Contains(name, "Reactor") || Contains(name, "RxJava") {
      return REACTIVE_STREAMS;
    }
    hit := ContainsClass(stackTrace, "Flux");
    if !hit {
      hit := ContainsClass(stackTrace, "Mono");
    }
    if !hit {
      hit := ContainsClass(stackTrace, "Observable");
    }
    if hit {
      return REACTIVE_STREAMS;
    }
    if Contains(name, "pool") || Contains(name, "worker") || Contains(name, "ForkJoinPool") {
      return THREAD_POOL;
    }
    if Contains(name, "Tomcat") || Contains(name, "Jetty") || Contains(name, "Netty") || Contains(name, "Undertow") {
      return WEB_SERVER;
    }
    if Contains(name, "Scheduled") || Contains(name, "Timer") {
      return SCHEDULED_TASK;
    }
    hit := ContainsClass(stackTrace, "ScheduledExecutorService");
    if hit {
      return SCHEDULED_TASK;
    }
    return OTHER_ASYNC;
  }

  /**
   * The legacy categoriser agrees with the new one on every thread whose
   * name does not contain "ForkJoinPool".
   */
  lemma CategoryMatchesCore(name: string, trace: seq<StackFrame>)
    requires !Contains(name, "ForkJoinPool")
    ensures ToCore(Category(name, trace)) == CoreAsync.Categorize(name, trace)
  {
  }

  /**
   * Where the two categorisers part: a "ForkJoinPool" thread without
   * future or reactive signs is a thread pool here, but in the new core only
   * when its name also contains "pool" or "worker".
   */
  lemma ForkJoinPoolCategories(name: string, trace: seq<StackFrame>)
    requires Contains(name, "ForkJoinPool")
    requires !CoreAsync.FutureSigns(name, trace) && !CoreAsync.ReactiveSigns(name, trace)
    ensures Category(name, trace) == THREAD_POOL
    ensures CoreAsync.Categorize(name, trace) == CoreThreadInfo.THREAD_POOL <==> CoreAsync.PoolSigns(name, trace)
  {
  }

  // getAsyncThreadStats

  /** `AsyncThreadStats`: counters the statistics method increments. */
  class AsyncThreadStats {
    var totalAsyncThreads: int
    var runnableAsyncThreads: int
    var blockedAsyncThreads: int
    var waitingAsyncThreads: int
    var timedWaitingAsyncThreads: int

    constructor()
      ensures totalAsyncThreads == 0 && runnableAsyncThreads == 0 && blockedAsyncThreads == 0
      ensures waitingAsyncThreads == 0 && timedWaitingAsyncThreads == 0
    {
      totalAsyncThreads := 0;
      runnableAsyncThreads := 0;
      blockedAsyncThreads := 0;
      waitingAsyncThreads := 0;
      timedWaitingAsyncThreads := 0;
    }
  }

  predicate IsAsyncRecord(t: LegacyThreadInfo.ThreadInfo)
  {
    AsyncSigns(t.name, t.stackTrace)
  }

  /** The number of async records in `ts`. */
  function AsyncCount(ts: seq<LegacyThreadInfo.ThreadInfo>): (n: nat)
    ensures n <= |ts|
  {
    if |ts| == 0 then 0
    else AsyncCount(ts[..|ts| - 1]) + (if IsAsyncRecord(ts[|ts| - 1]) then 1 else 0)
  }

  /** The number of async records in `ts` whose state text is `state`. */
  function AsyncStateCount(ts: seq<LegacyThreadInfo.ThreadInfo>, state: string): (n: nat)
    ensures n <= AsyncCount(ts)
  {
    if |ts| == 0 then 0
    else
      var last := ts[|ts| - 1];
      AsyncStateCount(ts[..|ts| - 1], state) + (if IsAsyncRecord(last) && last.state == state then 1 else 0)
  }

  /**
   * `getAsyncThreadStats`: every async record is counted once in the total,
   * and once more under its state when the state is one of the four the
   * switch names.
   */
  method GetAsyncThreadStats(threads: seq<LegacyThreadInfo.ThreadInfo>) returns (stats: AsyncThreadStats)
    ensures fresh(stats)
    ensures stats.totalAsyncThreads == AsyncCount(threads)
    ensures stats.runnableAsyncThreads == AsyncStateCount(threads, "RUNNABLE")
    ensures stats.blockedAsyncThreads == AsyncStateCount(threads, "BLOCKED")
    ensures stats.waitingAsyncThreads == AsyncStateCount(threads, "WAITING")
    ensures stats.timedWaitingAsyncThreads == AsyncStateCount(threads, "TIMED_WAITING")
  {
    stats := new AsyncThreadStats();
    StateNamesDistinct();
    for i := 0 to |threads|
      invariant stats.totalAsyncThreads == AsyncCount(threads[..i])
      invariant stats.runnableAsyncThreads == AsyncStateCount(threads[..i], "RUNNABLE")
      invariant stats.blockedAsyncThreads == AsyncStateCount(threads[..i], "BLOCKED")
      invariant stats.waitingAsyncThreads == AsyncStateCount(threads[..i], "WAITING")
      invariant stats.timedWaitingAsyncThreads == AsyncStateCount(threads[..i], "TIMED_WAITING")
    {
      var t := threads[i];
      CountStep(threads, i);
      StateCountStep(threads, i, "RUNNABLE");
      StateCountStep(threads, i, "BLOCKED");
      StateCountStep(threads, i, "WAITING");
      StateCountStep(threads, i, "TIMED_WAITING");
      var isAsync := IsAsyncThread(t.name, t.stackTrace);
      if isAsync {
        stats.totalAsyncThreads := stats.totalAsyncThreads + 1;
        if t.state == "RUNNABLE" {
          stats.runnableAsyncThreads := stats.runnableAsyncThreads + 1;
        } else if t.state == "BLOCKED" {
          stats.blockedAsyncThreads := stats.blockedAsyncThreads + 1;
        } else if t.state == "WAITING" {
          stats.waitingAsyncThreads := stats.waitingAsyncThreads + 1;
        } else if t.state == "TIMED_WAITING" {
          stats.timedWaitingAsyncThreads := stats.timedWaitingAsyncThreads + 1;
        }
      }
    }
    assert threads[..|threads|] == threads;
  }

  /** The four state texts of the switch are pairwise different. */
  lemma StateNamesDistinct()
    ensures "RUNNABLE" != "BLOCKED" && "RUNNABLE" != "WAITING" && "RUNNABLE" != "TIMED_WAITING"
    ensures "BLOCKED" != "WAITING" && "BLOCKED" != "TIMED_WAITING" && "WAITING" != "TIMED_WAITING"
  {
    assert "BLOCKED"[0] != "WAITING"[0];
  }

  /** One more record adds one to each count it satisfies. */
  lemma CountStep(ts: seq<LegacyThreadInfo.ThreadInfo>, i: nat)
    requires i < |ts|
    ensures AsyncCount(ts[..i + 1]) == AsyncCount(ts[..i]) + (if IsAsyncRecord(ts[i]) then 1 else 0)
  {
    assert ts[..i + 1][..i] == ts[..i];
  }

  /** One more record adds one to the count of its state when it is async. */
  lemma StateCountStep(ts: seq<LegacyThreadInfo.ThreadInfo>, i: nat, state: string)
    requires i < |ts|
    ensures AsyncStateCount(ts[..i + 1], state) ==
      AsyncStateCount(ts[..i], state) + (if IsAsyncRecord(ts[i]) && ts[i].state == state then 1 else 0)
  {
    assert ts[..i + 1][..i] == ts[..i];
  }

  /** The four state counters together never exceed the total. */
  lemma {:induction false} StateCountsWithinTotal(ts: seq<LegacyThreadInfo.ThreadInfo>)
    ensures AsyncStateCount(ts, "RUNNABLE") + AsyncStateCount(ts, "BLOCKED") +
      AsyncStateCount(ts, "WAITING") + AsyncStateCount(ts, "TIMED_WAITING") <= AsyncCount(ts)
  {
    if |ts| > 0 {
      StateCountsWithinTotal(ts[..|ts| - 1]);
    }
  }

  /**
   * When no record is new or terminated (the JVM's other two states), the
   * four counters add up to the total.
   */
  lemma {:induction false} StateCountsCoverLiveThreads(ts: seq<LegacyThreadInfo.ThreadInfo>)
    requires forall i :: 0 <= i < |ts| ==> ts[i].state in {"RUNNABLE", "BLOCKED", "WAITING", "TIMED_WAITING"}
    ensures AsyncStateCount(ts, "RUNNABLE") + AsyncStateCount(ts, "BLOCKED") +
      AsyncStateCount(ts, "WAITING") + AsyncStateCount(ts, "TIMED_WAITING") == AsyncCount(ts)
  {
    if |ts| > 0 {
      StateCountsCoverLiveThreads(ts[..|ts| - 1]);
    }
  }
}
