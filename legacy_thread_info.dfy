/**
 * The legacy thread record (`com.threadscope.ThreadInfo`), a getter/setter
 * object the legacy detector and monitor fill in right after creating it.
 * Since no one else sees it before it is filled, it is a value here. The
 * lists and the async type stay null until set; state is the text of the
 * JVM's state.
 */
module LegacyThreadInfo {
  import opened Common
  import opened Management

  /** `ThreadInfo.MonitorInfo` of the legacy record. */
  datatype MonitorInfo = MonitorInfo(
    className: string,
    identityHashCode: int,
    stackDepth: int,
    stackFrame: Option<StackFrame>)

  /** `ThreadInfo.LockInfo` of the legacy record. */
  datatype LockInfo = LockInfo(className: string, identityHashCode: int)

  datatype ThreadInfo = ThreadInfo(
    id: int,
    name: string,
    state: string,
    cpuTime: int,
    userTime: int,
    isDaemon: bool,
    priority: int,
    lockName: Option<string>,
    lockOwnerId: int,
    lockOwnerName: Option<string>,
    inNative: bool,
    suspended: bool,
    stackTrace: Option<seq<StackFrame>>,
    lockedMonitors: Option<seq<MonitorInfo>>,
    lockedSynchronizers: Option<seq<LockInfo>>,
    timestamp: int,
    isAsyncThread: bool,
    asyncThreadType: Option<string>)

  function MonitorOf(m: RawMonitor): (r: MonitorInfo)
  {
    MonitorInfo(m.className, m.identityHashCode, m.lockedStackDepth, m.lockedStackFrame)
  }

  function LockOf(l: RawLock): (r: LockInfo)
  {
    LockInfo(l.className, l.identityHashCode)
  }

  /**
   * `convertToThreadInfo` of the legacy detector and monitor: a fresh record
   * stamped `now`, filled from the JVM record, with the CPU and user times
   * the caller obtained (0 when it did not ask). Lock name and owner name
   * are set only when present, so an absent one stays null.
   */
  function Convert(raw: RawThread, cpuTime: int, userTime: int, now: int): (t: ThreadInfo)
    ensures t.id == raw.id && t.name == raw.name && t.state == StateName(raw.state)
    ensures t.isDaemon == raw.isDaemon && t.priority == raw.priority
    ensures t.inNative == raw.inNative && t.suspended == raw.suspended
    ensures t.lockOwnerId == raw.lockOwnerId
    ensures t.lockName == raw.lockName && t.lockOwnerName == raw.lockOwnerName
    ensures t.cpuTime == cpuTime && t.userTime == userTime
    ensures t.stackTrace == Some(raw.stackTrace)
    ensures t.lockedMonitors.Some? && |t.lockedMonitors.value| == |raw.lockedMonitors|
    ensures forall i :: 0 <= i < |raw.lockedMonitors| ==> t.lockedMonitors.value[i] == MonitorOf(raw.lockedMonitors[i])
    ensures t.lockedSynchronizers.Some? && |t.lockedSynchronizers.value| == |raw.lockedSynchronizers|
    ensures forall i :: 0 <= i < |raw.lockedSynchronizers| ==> t.lockedSynchronizers.value[i] == LockOf(raw.lockedSynchronizers[i])
    ensures !t.isAsyncThread && t.asyncThreadType.None? && t.timestamp == now
  {
    ThreadInfo(
      raw.id, raw.name, StateName(raw.state), cpuTime, userTime, raw.isDaemon, raw.priority,
      raw.lockName, raw.lockOwnerId, raw.lockOwnerName, raw.inNative, raw.suspended,
      Some(raw.stackTrace),
      Some(seq(|raw.lockedMonitors|, i requires 0 <= i < |raw.lockedMonitors| => MonitorOf(raw.lockedMonitors[i]))),
      Some(seq(|raw.lockedSynchronizers|, i requires 0 <= i < |raw.lockedSynchronizers| => LockOf(raw.lockedSynchronizers[i]))),
      now, false, None)
  }

  /** The state text of a converted record names the JVM state it came from. */
  lemma ConvertStateReadsBack(raw: RawThread, cpuTime: int, userTime: int, now: int)
    ensures StateOf(Convert(raw, cpuTime, userTime, now).state) == Some(raw.state)
  {
    StateNameRoundTrip(raw.state);
  }

  /** `setAsyncThread(true)` then `setAsyncThreadType(name)`: only the async fields change. */
  function MarkAsync(t: ThreadInfo, typeName: string): (r: ThreadInfo)
    ensures r.isAsyncThread && r.asyncThreadType == Some(typeName)
    ensures r.(isAsyncThread := t.isAsyncThread, asyncThreadType := t.asyncThreadType) == t
  {
    t.(isAsyncThread := true, asyncThreadType := Some(typeName))
  }
}
