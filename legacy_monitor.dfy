/**
 * The legacy `ThreadMonitor`: a running flag, the loop that turns the JVM's
 * thread records into legacy `ThreadInfo` records, the snapshot it builds
 * from them, and the deadlock alerts it logs.
 *
 * The scheduler is left out: `captureSnapshot` and `checkForDeadlocks` are
 * calls the caller makes. The JVM's answer to `getThreadInfo(ids, depth)`
 * is a function of the depth, a negative depth refused, and its CPU clock is a parameter; the
 * current instant is given as the record timestamp `now`, the ISO-8601
 * text and the local `yyyyMMdd-HHmmss` text of the snapshot.
 */
module LegacyMonitor {
  import opened Common
  import opened Management
  import opened SystemThreads
  import opened SnapshotText
  import LegacyThreadInfo
  import LegacyAsync
  import LegacyDeadlock
  import LegacyConfig
  import LegacySnapshot

  type Record = LegacyThreadInfo.ThreadInfo

  // ---------------------------------------------------------------------
  // convertToThreadInfo
  // ---------------------------------------------------------------------

  /**
   * What `ThreadMXBean` says about CPU time: whether it is supported, and
   * each thread's CPU and user time, either of which may throw.
   */
  datatype CpuClock = CpuClock(supported: bool, cpuTime: int -> Fetch<int>, userTime: int -> Fetch<int>)

  /** The CPU and user time a converted record ends up with. */
  datatype Times = Times(cpu: int, user: int)

  /**
   * The `try` of `convertToThreadInfo`: both times stay 0 unless CPU time
   * is supported; the CPU time is set before the user time is asked for, so
   * a failing user time keeps the CPU time, and a failing CPU time keeps neither.
   */
  function CpuTimes(clock: CpuClock, id: int): (r: Times)
    ensures !clock.supported ==> r == Times(0, 0)
    ensures clock.supported && clock.cpuTime(id).Threw? ==> r == Times(0, 0)
    ensures clock.supported && clock.cpuTime(id).Ok? ==>
      r.cpu == clock.cpuTime(id).value && r.user == (if clock.userTime(id).Ok? then clock.userTime(id).value else 0)
  {
    if !clock.supported then Times(0, 0)
    else match clock.cpuTime(id)
      case Threw => Times(0, 0)
      case Ok(cpu) =>
        match clock.userTime(id)
        case Threw => Times(cpu, 0)
        case Ok(user) => Times(cpu, user)
  }

  /** `convertToThreadInfo` of the monitor. */
  method ConvertToThreadInfo(raw: RawThread, clock: CpuClock, now: int) returns (t: Record)
    ensures t == LegacyThreadInfo.Convert(raw, CpuTimes(clock, raw.id).cpu, CpuTimes(clock, raw.id).user, now)
  {
    var cpu, user := 0, 0;
    if clock.supported {
      var c := clock.cpuTime(raw.id);
      if c.Ok? {
        cpu := c.value;
        var u := clock.userTime(raw.id);
        if u.Ok? {
          user := u.value;
        }
      }
    }
    t := LegacyThreadInfo.Convert(raw, cpu, user, now);
  }

  // ---------------------------------------------------------------------
  // getAllThreads
  // ---------------------------------------------------------------------

  /** A record the loop does not skip: system threads are shown only when configured. */
  predicate Shown(includeSystemThreads: bool, raw: RawThread)
  {
    includeSystemThreads || !IsSystemThread(raw.name)
  }

  /** The JVM records the loop reports: not null, and not hidden system threads. */
  function Kept(includeSystemThreads: bool, records: seq<Option<RawThread>>): (rs: seq<RawThread>)
  {
    Filter(NonNull(records), (raw: RawThread) => Shown(includeSystemThreads, raw))
  }

  /** The record the loop appends for a JVM record: converted, then marked async when it shows an async sign. */
  function Reported(clock: CpuClock, raw: RawThread, now: int): (t: Record)
  {
    var info := LegacyThreadInfo.Convert(raw, CpuTimes(clock, raw.id).cpu, CpuTimes(clock, raw.id).user, now);
    if LegacyAsync.AsyncSigns(raw.name, Some(raw.stackTrace))
    then LegacyThreadInfo.MarkAsync(info, LegacyAsync.TypeName(LegacyAsync.Category(raw.name, raw.stackTrace)))
    else info
  }

  function Reports(clock: CpuClock, rs: seq<RawThread>, now: int): (ts: seq<Record>)
    ensures |ts| == |rs| && forall i :: 0 <= i < |rs| ==> ts[i] == Reported(clock, rs[i], now)
  {
    seq(|rs|, i requires 0 <= i < |rs| => Reported(clock, rs[i], now))
  }

  /** The list `getAllThreads` returns for the records the JVM gave. */
  function Gathered(includeSystemThreads: bool, clock: CpuClock, records: seq<Option<RawThread>>, now: int): (ts: seq<Record>)
  {
    Reports(clock, Kept(includeSystemThreads, records), now)
  }

  lemma ReportsAppend(clock: CpuClock, rs: seq<RawThread>, raw: RawThread, now: int)
    ensures Reports(clock, rs + [raw], now) == Reports(clock, rs, now) + [Reported(clock, raw, now)]
  {
    assert Reports(clock, rs + [raw], now)[..|rs|] == Reports(clock, rs, now);
  }

  /** One more JVM record adds its report at the end when it is kept, and nothing otherwise. */
  lemma GatheredStep(includeSystem: bool, clock: CpuClock, records: seq<Option<RawThread>>, i: nat, now: int)
    requires i < |records|
    ensures Gathered(includeSystem, clock, records[..i + 1], now) ==
      Gathered(includeSystem, clock, records[..i], now) +
      (if records[i].Some? && Shown(includeSystem, records[i].value) then [Reported(clock, records[i].value, now)] else [])
  {
    var p := (raw: RawThread) => Shown(includeSystem, raw);
    TakeOneMore(records, i);
    NonNullAppend(records[..i], records[i]);
    if records[i].Some? {
      FilterAppend(NonNull(records[..i]), records[i].value, p);
      if p(records[i].value) {
        ReportsAppend(clock, Kept(includeSystem, records[..i]), records[i].value, now);
      }
    } else {
      assert NonNull(records[..i + 1]) == NonNull(records[..i]);
    }
  }

  /**
   * The records reported are exactly the non-null ones that are not hidden
   * system threads, in the JVM's order, at most one per entry.
   */
  lemma KeptRecords(includeSystem: bool, records: seq<Option<RawThread>>)
    ensures |Kept(includeSystem, records)| <= |records|
    ensures forall raw :: raw in Kept(includeSystem, records) <==>
      Some(raw) in records && (includeSystem || !IsSystemThread(raw.name))
    ensures IsSubsequence(Kept(includeSystem, records), NonNull(records))
  {
    NonNullSpec(records);
    FilterSpec(NonNull(records), (raw: RawThread) => Shown(includeSystem, raw));
  }

  /**
   * A reported record is the converted JVM record, except that it is marked
   * async, with its category's name, exactly when the legacy test finds an
   * async sign; otherwise its async fields keep their defaults.
   */
  lemma ReportedRecord(clock: CpuClock, raw: RawThread, now: int)
    ensures var t := Reported(clock, raw, now);
      t.(isAsyncThread := false, asyncThreadType := None) ==
        LegacyThreadInfo.Convert(raw, CpuTimes(clock, raw.id).cpu, CpuTimes(clock, raw.id).user, now) &&
      (t.isAsyncThread <==> LegacyAsync.AsyncSigns(raw.name, Some(raw.stackTrace))) &&
      (t.isAsyncThread ==> t.asyncThreadType == Some(LegacyAsync.TypeName(LegacyAsync.Category(raw.name, raw.stackTrace)))) &&
      (!t.isAsyncThread ==> t.asyncThreadType.None?)
  {
  }

  /** A reported record's state text is "RUNNABLE" exactly when the JVM's thread is runnable. */
  lemma ReportedRunnable(clock: CpuClock, raw: RawThread, now: int)
    ensures Reported(clock, raw, now).state == "RUNNABLE" <==> raw.state == RUNNABLE
  {
    StateNameRoundTrip(raw.state);
    assert StateName(RUNNABLE) == "RUNNABLE";
  }

  /** Without CPU time support every record reports zero CPU and user time. */
  lemma UnsupportedClockReportsZero(clock: CpuClock, rs: seq<RawThread>, now: int)
    requires !clock.supported
    ensures forall i :: 0 <= i < |rs| ==> Reports(clock, rs, now)[i].cpuTime == 0 && Reports(clock, rs, now)[i].userTime == 0
  {
  }

  // ---------------------------------------------------------------------
  // captureSnapshot and checkForDeadlocks
  // ---------------------------------------------------------------------

  predicate IsRunnable(t: Record)
  {
    t.state == "RUNNABLE"
  }

  /** The snapshot `captureSnapshot` builds: the list's size and the number of its "RUNNABLE" records. */
  function SnapshotOf(timestamp: string, threads: seq<Record>, deadlocks: seq<LegacyDeadlock.DeadlockInfo>): (s: LegacySnapshot.Snapshot)
    ensures s.timestamp == timestamp && s.threads == threads && s.deadlocks == deadlocks
    ensures s.totalThreads == |threads|
    ensures 0 <= s.activeThreads <= s.totalThreads
    ensures s.activeThreads == |Filter(threads, IsRunnable)|
  {
    CountBound(threads, IsRunnable);
    LegacySnapshot.Snapshot(timestamp, threads, deadlocks, |threads|, Count(threads, IsRunnable))
  }

  /**
   * The active count of a gathered list is the number of kept JVM records
   * whose thread is runnable.
   */
  lemma {:induction false} RunnableReports(clock: CpuClock, rs: seq<RawThread>, now: int)
    ensures Count(Reports(clock, rs, now), IsRunnable) == Count(rs, (raw: RawThread) => raw.state == RUNNABLE)
    decreases |rs|
  {
    if |rs| > 0 {
      assert Reports(clock, rs, now)[1..] == Reports(clock, rs[1..], now);
      RunnableReports(clock, rs[1..], now);
      ReportedRunnable(clock, rs[0], now);
    }
  }

  /** What one call of `captureSnapshot` leaves behind. */
  datatype Capture = Capture(
    snapshot: Option<LegacySnapshot.Snapshot>,
    files: seq<Written<LegacySnapshot.Page>>,
    generatorLogged: bool,
    captureLogged: bool)

  /**
   * The outcome of handing a snapshot to the generator: what it wrote, and
   * which of the two `catch` blocks logged an error.
   */
  function Handed(s: LegacySnapshot.Snapshot, g: Fetch<LegacySnapshot.Generation>): (c: Capture)
    ensures c.snapshot == Some(s)
    ensures c.captureLogged <==> g.Threw?
    ensures g.Threw? ==> c.files == [] && !c.generatorLogged
    ensures g.Ok? ==> c.files == g.value.files && c.generatorLogged == g.value.errorLogged
  {
    match g
    case Threw => Capture(Some(s), [], false, true)
    case Ok(gen) => Capture(Some(s), gen.files, gen.errorLogged, false)
  }

  /** The lines `checkForDeadlocks` logs: nothing, or the count and then one line per cycle. */
  function DeadlockAlerts(ds: seq<LegacyDeadlock.DeadlockInfo>): (lines: seq<string>)
  {
    if |ds| == 0 then [] else [AlertHeader(|ds|)] + CycleAlerts(ds)
  }

  function AlertHeader(n: nat): (line: string)
  {
    "DEADLOCK DETECTED: " + NatToString(n) + " deadlock cycles found"
  }

  function CycleAlert(d: LegacyDeadlock.DeadlockInfo): (line: string)
  {
    "Deadlock cycle " + IntToString(d.cycleId) + ": threads " + LongListToString(d.threadIds)
  }

  function CycleAlerts(ds: seq<LegacyDeadlock.DeadlockInfo>): (lines: seq<string>)
    ensures |lines| == |ds| && forall i :: 0 <= i < |ds| ==> lines[i] == CycleAlert(ds[i])
  {
    seq(|ds|, i requires 0 <= i < |ds| => CycleAlert(ds[i]))
  }

  lemma CycleAlertsStep(ds: seq<LegacyDeadlock.DeadlockInfo>, i: nat)
    requires i < |ds|
    ensures CycleAlerts(ds[..i + 1]) == CycleAlerts(ds[..i]) + [CycleAlert(ds[i])]
  {
  }

  /**
   * No deadlock logs nothing; otherwise a first line with the number of
   * cycles and then one line per cycle, in the detector's order.
   */
  lemma DeadlockAlertLines(ds: seq<LegacyDeadlock.DeadlockInfo>)
    ensures |DeadlockAlerts(ds)| == if |ds| == 0 then 0 else |ds| + 1
    ensures |ds| > 0 ==> DeadlockAlerts(ds)[0] == AlertHeader(|ds|)
    ensures forall i :: 0 <= i < |ds| ==> DeadlockAlerts(ds)[i + 1] == CycleAlert(ds[i])
  {
    if |ds| > 0 {
      var rest := CycleAlerts(ds);
      assert DeadlockAlerts(ds) == [AlertHeader(|ds|)] + rest;
      forall i | 0 <= i < |ds| ensures DeadlockAlerts(ds)[i + 1] == CycleAlert(ds[i]) {
        assert DeadlockAlerts(ds)[i + 1] == rest[i];
      }
    }
  }

  // ---------------------------------------------------------------------
  // The monitor
  // ---------------------------------------------------------------------

  class ThreadMonitor {
    const config: LegacyConfig.ThreadScopeConfig
    const generator: LegacySnapshot.SnapshotGenerator
    var running: bool

    /** `new ThreadMonitor(config)`: stopped, with a generator over the same configuration. */
    constructor(config: LegacyConfig.ThreadScopeConfig)
      ensures this.config == config && generator.config == config && !running
      ensures generator.timestampFormat == ZONED_TIMESTAMP_FORMAT
    {
      this.config := config;
      this.generator := new LegacySnapshot.SnapshotGenerator(config);
      running := false;
    }

    /**
     * `start`: a no-op while running, and a disabled configuration leaves
     * the monitor stopped; otherwise it is running from then on.
     */
    method Start()
      modifies this
      ensures running == (old(running) || config.enabled)
    {
      if running {
        return;
      }
      if !config.enabled {
        return;
      }
      running := true;
    }

    /** `stop`: stopped afterwards, whether or not it was running. */
    method Stop()
      modifies this
      ensures !running
    {
      if !running {
        return;
      }
      running := false;
    }

    /**
     * `getAllThreads`: the JVM's records at the configured stack depth,
     * nulls and hidden system threads skipped, each converted and, when
     * async, marked. A null advanced section throws at its getter, and a
     * negative depth at `getThreadInfo`.
     */
    method GetAllThreads(threadInfo: int -> seq<Option<RawThread>>, clock: CpuClock, now: int)
      returns (r: Fetch<seq<Record>>)
      ensures r.Threw? <==> config.advanced == null || config.advanced.maxStackTraceDepth < 0
      ensures r.Ok? ==>
        r.value == Gathered(config.advanced.includeSystemThreads, clock, threadInfo(config.advanced.maxStackTraceDepth), now)
    {
      if config.advanced == null {
        return Threw;
      }
      var dump := ThreadDump(threadInfo, config.advanced.maxStackTraceDepth);
      if dump.Threw? {
        return Threw;
      }
      var records := dump.value;
      var includeSystem := config.advanced.includeSystemThreads;
      var threads: seq<Record> := [];
      for i := 0 to |records|
        invariant threads == Gathered(includeSystem, clock, records[..i], now)
      {
        GatheredStep(includeSystem, clock, records, i, now);
        if records[i].None? {
          continue;
        }
        var raw := records[i].value;
        if !includeSystem && IsSystemThread(raw.name) {
          continue;
        }
        var info := ConvertToThreadInfo(raw, clock, now);
        var isAsync := LegacyAsync.IsAsyncThread(raw.name, Some(raw.stackTrace));
        if isAsync {
          var category := LegacyAsync.Categorize(raw.name, raw.stackTrace);
          info := LegacyThreadInfo.MarkAsync(info, LegacyAsync.TypeName(category));
        }
        threads := threads + [info];
      }
      TakeAll(records);
      return Ok(threads);
    }

    /**
     * `captureSnapshot`: gather the threads, detect deadlocks, build the
     * snapshot and hand it to the generator. Nothing escapes: a failure to
     * gather the threads, or one the generator lets through, is logged.
     */
    method CaptureSnapshot(threadInfo: int -> seq<Option<RawThread>>, clock: CpuClock, jvm: Jvm,
                           now: int, instant: string, local: string) returns (c: Capture)
      ensures config.advanced == null || config.advanced.maxStackTraceDepth < 0 ==> c == Capture(None, [], false, true)
      ensures config.advanced != null && config.advanced.maxStackTraceDepth >= 0 ==>
        var s := SnapshotOf(instant,
          Gathered(config.advanced.includeSystemThreads, clock, threadInfo(config.advanced.maxStackTraceDepth), now),
          LegacyDeadlock.DeadlocksOf(jvm, now));
        c == Handed(s, LegacySnapshot.Generated(LegacySnapshot.OutputOf(generator.config),
                                                FormatInstant(generator.timestampFormat, local), s))
    {
      var threads := GetAllThreads(threadInfo, clock, now);
      if threads.Threw? {
        return Capture(None, [], false, true);
      }
      var deadlocks := LegacyDeadlock.DetectDeadlocks(jvm, now);
      var s := SnapshotOf(instant, threads.value, deadlocks);
      var g := generator.GenerateSnapshot(s, local);
      c := Handed(s, g);
    }

    /** `checkForDeadlocks`: the lines it logs. */
    method CheckForDeadlocks(jvm: Jvm, now: int) returns (lines: seq<string>)
      ensures lines == DeadlockAlerts(LegacyDeadlock.DeadlocksOf(jvm, now))
    {
      var deadlocks := LegacyDeadlock.DetectDeadlocks(jvm, now);
      lines := [];
      if |deadlocks| > 0 {
        var header := "DEADLOCK DETECTED: " + NatToString(|deadlocks|) + " deadlock cycles found";
        lines := lines + [header];
        for i := 0 to |deadlocks|
          invariant lines == [AlertHeader(|deadlocks|)] + CycleAlerts(deadlocks[..i])
        {
          var line := "Deadlock cycle " + IntToString(deadlocks[i].cycleId) + ": threads " + LongListToString(deadlocks[i].threadIds);
          CycleAlertsStep(deadlocks, i);
          AppendAssociates([AlertHeader(|deadlocks|)], CycleAlerts(deadlocks[..i]), [line]);
          lines := lines + [line];
        }
        TakeAll(deadlocks);
      }
    }
  }

  /**
   * The snapshot of a capture counts what the JVM reported: every kept
   * record once, and as active exactly the kept records whose thread is runnable.
   */
  lemma CaptureCounts(includeSystem: bool, clock: CpuClock, records: seq<Option<RawThread>>, now: int,
                      instant: string, ds: seq<LegacyDeadlock.DeadlockInfo>)
    ensures var s := SnapshotOf(instant, Gathered(includeSystem, clock, records, now), ds);
      s.totalThreads == |Kept(includeSystem, records)| <= |records| &&
      s.activeThreads == Count(Kept(includeSystem, records), (raw: RawThread) => raw.state == RUNNABLE)
  {
    KeptRecords(includeSystem, records);
    RunnableReports(clock, Kept(includeSystem, records), now);
  }
}
