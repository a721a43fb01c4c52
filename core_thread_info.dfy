/**
 * The new core's immutable thread record (`com.threadscope.core.ThreadInfo`):
 * built once, copied with changed async fields, compared by id only.
 */
module CoreThreadInfo {
  import opened Common
  import opened Management
  import JavaHash

  /** `ThreadInfo.AsyncThreadType`. */
  datatype AsyncThreadType =
    COMPLETABLE_FUTURE | REACTIVE_STREAMS | THREAD_POOL | WEB_SERVER | SCHEDULED_TASK | OTHER_ASYNC | UNKNOWN

  /** `ThreadInfo.MonitorInfo`. */
  datatype MonitorInfo = MonitorInfo(
    className: string,
    identityHashCode: int,
    stackDepth: int,
    stackFrame: Option<StackFrame>)

  /** `ThreadInfo.LockInfo`. */
  datatype LockInfo = LockInfo(className: string, identityHashCode: int)

  /**
   * The record's final fields. The lists are never null once constructed;
   * `timestamp` is the clock value the record was stamped with.
   */
  datatype ThreadInfo = ThreadInfo(
    id: int,
    name: string,
    state: ThreadState,
    cpuTime: int,
    userTime: int,
    isDaemon: bool,
    priority: int,
    lockName: Option<string>,
    lockOwnerId: int,
    lockOwnerName: Option<string>,
    inNative: bool,
    suspended: bool,
    stackTrace: seq<StackFrame>,
    lockedMonitors: seq<MonitorInfo>,
    lockedSynchronizers: seq<LockInfo>,
    timestamp: int,
    isAsyncThread: bool,
    asyncThreadType: AsyncThreadType)

  /** A list argument that may be null, read as the list the record keeps. */
  function OrEmpty<T>(l: Option<seq<T>>): (r: seq<T>)
    ensures l.None? ==> r == []
    ensures l.Some? ==> r == l.value
  {
    if l.Some? then l.value else []
  }

  /**
   * The constructor: every argument is kept as given, except that a null
   * stack, monitor or synchronizer list becomes an empty one.
   */
  function Create(
    id: int, name: string, state: ThreadState, cpuTime: int, userTime: int,
    isDaemon: bool, priority: int, lockName: Option<string>, lockOwnerId: int,
    lockOwnerName: Option<string>, inNative: bool, suspended: bool,
    stackTrace: Option<seq<StackFrame>>, lockedMonitors: Option<seq<MonitorInfo>>,
    lockedSynchronizers: Option<seq<LockInfo>>, timestamp: int,
    isAsyncThread: bool, asyncThreadType: AsyncThreadType): (t: ThreadInfo)
    ensures t.id == id && t.name == name && t.state == state
    ensures t.cpuTime == cpuTime && t.userTime == userTime
    ensures t.isDaemon == isDaemon && t.priority == priority
    ensures t.lockName == lockName && t.lockOwnerId == lockOwnerId && t.lockOwnerName == lockOwnerName
    ensures t.inNative == inNative && t.suspended == suspended
    ensures t.stackTrace == OrEmpty(stackTrace)
    ensures t.lockedMonitors == OrEmpty(lockedMonitors)
    ensures t.lockedSynchronizers == OrEmpty(lockedSynchronizers)
    ensures t.timestamp == timestamp
    ensures t.isAsyncThread == isAsyncThread && t.asyncThreadType == asyncThreadType
  {
    ThreadInfo(id, name, state, cpuTime, userTime, isDaemon, priority, lockName, lockOwnerId,
      lockOwnerName, inNative, suspended, OrEmpty(stackTrace), OrEmpty(lockedMonitors),
      OrEmpty(lockedSynchronizers), timestamp, isAsyncThread, asyncThreadType)
  }

  /** `a` and `b` agree on every field except the two async ones. */
  predicate SameExceptAsync(a: ThreadInfo, b: ThreadInfo)
  {
    a.(isAsyncThread := b.isAsyncThread, asyncThreadType := b.asyncThreadType) == b
  }

  /** `withAsyncInfo(isAsync, type)`: a copy that differs only in the async fields. */
  function WithAsyncInfo(t: ThreadInfo, isAsync: bool, asyncType: AsyncThreadType): (r: ThreadInfo)
    ensures SameExceptAsync(t, r)
    ensures r.isAsyncThread == isAsync && r.asyncThreadType == asyncType
  {
    Create(t.id, t.name, t.state, t.cpuTime, t.userTime, t.isDaemon, t.priority, t.lockName,
      t.lockOwnerId, t.lockOwnerName, t.inNative, t.suspended, Some(t.stackTrace),
      Some(t.lockedMonitors), Some(t.lockedSynchronizers), t.timestamp, isAsync, asyncType)
  }

  /** Copying with the record's own async values gives the record back. */
  lemma WithOwnAsyncInfo(t: ThreadInfo)
    ensures WithAsyncInfo(t, t.isAsyncThread, t.asyncThreadType) == t
  {
  }

  /** Of two successive copies, the second decides the async fields. */
  lemma WithAsyncInfoTwice(t: ThreadInfo, a: bool, x: AsyncThreadType, b: bool, y: AsyncThreadType)
    ensures WithAsyncInfo(WithAsyncInfo(t, a, x), b, y) == WithAsyncInfo(t, b, y)
  {
  }

  /** Differing only in the async fields is an equivalence. */
  lemma SameExceptAsyncTransitive(a: ThreadInfo, b: ThreadInfo, c: ThreadInfo)
    requires SameExceptAsync(a, b) && SameExceptAsync(b, c)
    ensures SameExceptAsync(a, c) && SameExceptAsync(b, a)
  {
  }

  /** `equals`: two records are equal exactly when their ids are. */
  predicate Equals(a: ThreadInfo, b: ThreadInfo)
  {
    a.id == b.id
  }

  /** A Java `int` read from its 32-bit pattern. */
  function Int32(bits: nat): (r: int)
    requires bits < JavaHash.TWO_32
    ensures -0x8000_0000 <= r < 0x8000_0000
  {
    if bits < 0x8000_0000 then bits else bits - JavaHash.TWO_32
  }

  /** `Objects.hash(x)` for one value whose own hash code has the 32-bit pattern `h`. */
  function ObjectsHash(h: nat): (r: int)
    ensures -0x8000_0000 <= r < 0x8000_0000
  {
    Int32((31 + h) % JavaHash.TWO_32)
  }

  /** Below the wrap-around, `Objects.hash` adds 31. */
  lemma ObjectsHashSmall(h: nat)
    requires h < 0x8000_0000 - 31
    ensures ObjectsHash(h) == 31 + h
  {
    SmallMod(31 + h, JavaHash.TWO_32);
  }

  lemma SmallMod(a: nat, m: nat)
    requires a < m
    ensures a % m == a
  {
  }

  /** `hashCode`: `Objects.hash(id)`, i.e. `31 + Long.hashCode(id)` with `int` wrap-around. */
  function HashCode(t: ThreadInfo): (h: int)
    ensures -0x8000_0000 <= h < 0x8000_0000
  {
    ObjectsHash(JavaHash.LongHash(t.id))
  }

  /** Equal records have equal hash codes; the hash code reads nothing but the id. */
  lemma HashCodeConsistent(a: ThreadInfo, b: ThreadInfo)
    requires Equals(a, b)
    ensures HashCode(a) == HashCode(b)
  {
  }

  /** Equality by id is reflexive, symmetric and transitive. */
  lemma EqualsIsEquivalence(a: ThreadInfo, b: ThreadInfo, c: ThreadInfo)
    ensures Equals(a, a)
    ensures Equals(a, b) ==> Equals(b, a)
    ensures Equals(a, b) && Equals(b, c) ==> Equals(a, c)
  {
  }

  /** Copies made by `withAsyncInfo` equal their original. */
  lemma WithAsyncInfoEquals(t: ThreadInfo, isAsync: bool, asyncType: AsyncThreadType)
    ensures Equals(WithAsyncInfo(t, isAsync, asyncType), t)
    ensures HashCode(WithAsyncInfo(t, isAsync, asyncType)) == HashCode(t)
  {
  }

  /** A thread id in `[0, 65536)` hashes to `31 + id`. */
  lemma SmallIdHashCode(t: ThreadInfo)
    requires 0 <= t.id < 0x1_0000
    ensures HashCode(t) == 31 + t.id
  {
    JavaHash.SmallLongHash(t.id);
    ObjectsHashSmall(t.id);
  }

  /** The record of one locked monitor, field for field. */
  function MonitorOf(m: RawMonitor): (r: MonitorInfo)
    ensures r.className == m.className && r.identityHashCode == m.identityHashCode
    ensures r.stackDepth == m.lockedStackDepth && r.stackFrame == m.lockedStackFrame
  {
    MonitorInfo(m.className, m.identityHashCode, m.lockedStackDepth, m.lockedStackFrame)
  }

  /** The record of one locked synchronizer, field for field. */
  function LockOf(l: RawLock): (r: LockInfo)
    ensures r.className == l.className && r.identityHashCode == l.identityHashCode
  {
    LockInfo(l.className, l.identityHashCode)
  }

  /**
   * What `from` builds for the JVM record `raw` stamped at `now`: the JVM's
   * values, no CPU or user time yet, not async, type UNKNOWN.
   */
  function FromRecord(raw: RawThread, now: int): (t: ThreadInfo)
  {
    StateNameRoundTrip(raw.state);
    Create(raw.id, raw.name, StateOf(StateName(raw.state)).value, 0, 0, raw.isDaemon, raw.priority,
      raw.lockName, raw.lockOwnerId, raw.lockOwnerName, raw.inNative, raw.suspended,
      Some(raw.stackTrace),
      Some(seq(|raw.lockedMonitors|, i requires 0 <= i < |raw.lockedMonitors| => MonitorOf(raw.lockedMonitors[i]))),
      Some(seq(|raw.lockedSynchronizers|, i requires 0 <= i < |raw.lockedSynchronizers| => LockOf(raw.lockedSynchronizers[i]))),
      now, false, UNKNOWN)
  }

  /** The fields `from` copies, the ones it fixes, and the monitor and lock lists in count and order. */
  lemma FromRecordFields(raw: RawThread, now: int)
    ensures var t := FromRecord(raw, now);
      t.id == raw.id && t.name == raw.name && t.state == raw.state &&
      t.cpuTime == 0 && t.userTime == 0 && !t.isAsyncThread && t.asyncThreadType == UNKNOWN &&
      t.stackTrace == raw.stackTrace && t.timestamp == now &&
      t.isDaemon == raw.isDaemon && t.priority == raw.priority &&
      t.lockName == raw.lockName && t.lockOwnerId == raw.lockOwnerId && t.lockOwnerName == raw.lockOwnerName &&
      t.inNative == raw.inNative && t.suspended == raw.suspended &&
      |t.lockedMonitors| == |raw.lockedMonitors| &&
      (forall i :: 0 <= i < |raw.lockedMonitors| ==> t.lockedMonitors[i] == MonitorOf(raw.lockedMonitors[i])) &&
      |t.lockedSynchronizers| == |raw.lockedSynchronizers| &&
      (forall i :: 0 <= i < |raw.lockedSynchronizers| ==> t.lockedSynchronizers[i] == LockOf(raw.lockedSynchronizers[i]))
  {
    StateNameRoundTrip(raw.state);
  }

  /** `ThreadInfo.from`: copies the monitors and the synchronizers one at a time. */
  method From(raw: RawThread, now: int) returns (t: ThreadInfo)
    ensures t == FromRecord(raw, now)
  {
    var monitors: seq<MonitorInfo> := [];
    for i := 0 to |raw.lockedMonitors|
      invariant monitors == seq(i, k requires 0 <= k < i => MonitorOf(raw.lockedMonitors[k]))
    {
      monitors := monitors + [MonitorOf(raw.lockedMonitors[i])];
    }
    var locks: seq<LockInfo> := [];
    for i := 0 to |raw.lockedSynchronizers|
      invariant locks == seq(i, k requires 0 <= k < i => LockOf(raw.lockedSynchronizers[k]))
    {
      locks := locks + [LockOf(raw.lockedSynchronizers[i])];
    }
    StateNameRoundTrip(raw.state);
    var state := StateOf(StateName(raw.state)).value;
    t := Create(raw.id, raw.name, state, 0, 0, raw.isDaemon, raw.priority, raw.lockName,
      raw.lockOwnerId, raw.lockOwnerName, raw.inNative, raw.suspended, Some(raw.stackTrace),
      Some(monitors), Some(locks), now, false, UNKNOWN);
  }
}
