/**
 * The new core's `ThreadMonitorService`: a running flag, a list of
 * detectors chosen from the configuration, a list of event listeners, and
 * the collection pipeline that turns the JVM's thread records into
 * annotated `ThreadInfo` values.
 *
 * The service hands its work to an executor and returns futures; here each
 * task runs to completion inside the call. The JVM's answer to
 * `getThreadInfo(getAllThreadIds(), depth)` is a function of the depth,
 * given by the caller, and a negative depth is refused (`ThreadDump`). What a listener does with an event is not visible;
 * the service records, for every call it makes, which listener it called
 * with which event and whether that call threw.
 */
module MonitorService {
  import opened Common
  import opened Management
  import opened Detection
  import opened CoreThreadInfo
  import opened SystemThreads
  import CoreAsync
  import CoreDeadlock
  import CoreConfig

  /** `MonitoringEvent` and its five subclasses. */
  datatype MonitoringEvent =
    | ServiceStarted
    | ServiceStopped
    | ThreadsCollected(threads: seq<ThreadInfo>)
    | DeadlockDetected(threadIds: seq<int>)
    | AsyncThreadDetected(thread: ThreadInfo)

  /** Which implementation of `ThreadDetector` an entry of the detector list is. */
  datatype DetectorKind = DeadlockKind | AsyncKind | OtherKind

  /**
   * An entry of the detector list: an object with final fields, removed by
   * identity.
   */
  class Detector {
    const kind: DetectorKind
    const settings: DetectorSettings

    constructor(kind: DetectorKind, settings: DetectorSettings)
      ensures this.kind == kind && this.settings == settings
    {
      this.kind := kind;
      this.settings := settings;
    }
  }

  /**
   * A `Consumer<MonitoringEvent>`, compared by identity; `throwsOn` tells
   * which events make its `accept` throw.
   */
  class Listener {
    const throwsOn: MonitoringEvent -> bool

    constructor(throwsOn: MonitoringEvent -> bool)
      ensures this.throwsOn == throwsOn
    {
      this.throwsOn := throwsOn;
    }
  }

  /** One call of a listener's `accept`, and whether it threw. */
  datatype Call = Call(listener: Listener, event: MonitoringEvent, threw: bool)

  /** The calls `notifyEventListeners(event)` makes: every listener, in list order. */
  function Notified(listeners: seq<Listener>, event: MonitoringEvent): (cs: seq<Call>)
    ensures |cs| == |listeners|
    ensures forall i :: 0 <= i < |listeners| ==>
      cs[i].listener == listeners[i] && cs[i].event == event && cs[i].threw == listeners[i].throwsOn(event)
  {
    seq(|listeners|, i requires 0 <= i < |listeners| => Call(listeners[i], event, listeners[i].throwsOn(event)))
  }

  // ---------------------------------------------------------------------
  // applyDetections
  // ---------------------------------------------------------------------

  /** What one entry reports about `t` in `applyDetections`: nothing unless it is an enabled async detector. */
  function Verdict(d: Detector, t: ThreadInfo, now: int): (v: Option<CoreAsync.AsyncDetectionResult>)
  {
    if d.kind == AsyncKind && d.settings.enabled then Some(CoreAsync.Detect(d.settings, t, now)) else None
  }

  /** The reports of every entry of the list, in order. */
  function Verdicts(ds: seq<Detector>, t: ThreadInfo, now: int): (vs: seq<Option<CoreAsync.AsyncDetectionResult>>)
    ensures |vs| == |ds| && forall i :: 0 <= i < |ds| ==> vs[i] == Verdict(ds[i], t, now)
  {
    seq(|ds|, i requires 0 <= i < |ds| => Verdict(ds[i], t, now))
  }

  /** A report that marks the thread. */
  predicate Positive(v: Option<CoreAsync.AsyncDetectionResult>)
  {
    v.Some? && v.value.isAsync
  }

  /** An entry that marks `t`: an enabled async detector whose detection of it is positive. */
  predicate Fires(d: Detector, t: ThreadInfo, now: int)
  {
    Positive(Verdict(d, t, now))
  }

  /** The loop of `applyDetections` over the reports `vs`: each positive one overwrites the async fields. */
  function Annotate(t: ThreadInfo, vs: seq<Option<CoreAsync.AsyncDetectionResult>>): (r: ThreadInfo)
    decreases |vs|
  {
    if |vs| == 0 then t
    else
      var r := Annotate(t, vs[..|vs| - 1]);
      var v := vs[|vs| - 1];
      if Positive(v) then WithAsyncInfo(r, true, v.value.asyncType) else r
  }

  /** `applyDetections(t)`: every entry detects on the original `t`. */
  function Annotated(ds: seq<Detector>, t: ThreadInfo, now: int): (r: ThreadInfo)
  {
    Annotate(t, Verdicts(ds, t, now))
  }

  /**
   * When every positive report names the same category, the thread comes
   * back unchanged if no report is positive, and async with that category
   * otherwise.
   */
  lemma {:induction false} AnnotateResult(t: ThreadInfo, vs: seq<Option<CoreAsync.AsyncDetectionResult>>, c: AsyncThreadType)
    requires forall i :: 0 <= i < |vs| && Positive(vs[i]) ==> vs[i].value.asyncType == c
    ensures (forall i :: 0 <= i < |vs| ==> !Positive(vs[i])) ==> Annotate(t, vs) == t
    ensures (exists i :: 0 <= i < |vs| && Positive(vs[i])) ==> Annotate(t, vs) == WithAsyncInfo(t, true, c)
    decreases |vs|
  {
    if |vs| > 0 {
      var init := vs[..|vs| - 1];
      assert forall i :: 0 <= i < |init| ==> init[i] == vs[i];
      AnnotateResult(t, init, c);
      if Positive(vs[|vs| - 1]) {
        if exists i :: 0 <= i < |init| && Positive(init[i]) {
          WithAsyncInfoTwice(t, true, c, true, c);
        }
      } else if exists i :: 0 <= i < |vs| && Positive(vs[i]) {
        var i :| 0 <= i < |vs| && Positive(vs[i]);
        assert i < |init| && Positive(init[i]);
      }
    }
  }

  /**
   * The detectors only ever touch the async fields: a thread no entry fires
   * on comes back unchanged, and one that some entry fires on comes back
   * async with its category (every firing entry finds the same one, so the
   * last of them deciding is not visible).
   */
  lemma AnnotatedResult(ds: seq<Detector>, t: ThreadInfo, now: int)
    ensures (forall i :: 0 <= i < |ds| ==> !Fires(ds[i], t, now)) ==> Annotated(ds, t, now) == t
    ensures (exists i :: 0 <= i < |ds| && Fires(ds[i], t, now)) ==>
      Annotated(ds, t, now) == WithAsyncInfo(t, true, CoreAsync.Categorize(t.name, t.stackTrace))
  {
    var vs := Verdicts(ds, t, now);
    var c := CoreAsync.Categorize(t.name, t.stackTrace);
    AnnotateResult(t, vs, c);
    if exists i :: 0 <= i < |ds| && Fires(ds[i], t, now) {
      var i :| 0 <= i < |ds| && Fires(ds[i], t, now);
      assert Positive(vs[i]);
    }
  }

  /** Whatever the detectors, only the two async fields can differ from the thread given. */
  lemma AnnotatedSameExceptAsync(ds: seq<Detector>, t: ThreadInfo, now: int)
    ensures SameExceptAsync(t, Annotated(ds, t, now))
  {
    AnnotatedResult(ds, t, now);
    WithOwnAsyncInfo(t);
  }

  // ---------------------------------------------------------------------
  // The getAllThreads pipeline
  // ---------------------------------------------------------------------

  /** `shouldIncludeThread`: a system thread is dropped unless the configuration includes them. */
  predicate ShouldInclude(config: CoreConfig.ThreadScopeConfig, raw: RawThread)
  {
    !(!config.advanced.includeSystemThreads && IsSystemThread(raw.name))
  }

  /** The JVM records the pipeline keeps: not null, and not excluded system threads. */
  function Kept(config: CoreConfig.ThreadScopeConfig, records: seq<Option<RawThread>>): (rs: seq<RawThread>)
  {
    Filter(NonNull(records), (raw: RawThread) => ShouldInclude(config, raw))
  }

  /** The stream of `getAllThreads`: kept records, converted by `from`, annotated by `applyDetections`. */
  function Collected(config: CoreConfig.ThreadScopeConfig, ds: seq<Detector>,
                     records: seq<Option<RawThread>>, now: int): (ts: seq<ThreadInfo>)
  {
    Converted(ds, Kept(config, records), now)
  }

  /** The kept records, each converted by `from` and annotated by `applyDetections`. */
  function Converted(ds: seq<Detector>, kept: seq<RawThread>, now: int): (ts: seq<ThreadInfo>)
  {
    seq(|kept|, i requires 0 <= i < |kept| => Entry(ds, kept[i], now))
  }

  /** One kept record, converted by `from` and annotated by `applyDetections`. */
  function Entry(ds: seq<Detector>, raw: RawThread, now: int): (t: ThreadInfo)
  {
    Annotated(ds, FromRecord(raw, now), now)
  }

  /**
   * The records kept are exactly the non-null ones that are not excluded
   * system threads, in provider order, at most one per entry.
   */
  lemma KeptRecords(config: CoreConfig.ThreadScopeConfig, records: seq<Option<RawThread>>)
    ensures |Kept(config, records)| <= |records|
    ensures forall raw :: raw in Kept(config, records) <==>
      Some(raw) in records && (config.advanced.includeSystemThreads || !IsSystemThread(raw.name))
    ensures IsSubsequence(Kept(config, records), NonNull(records))
  {
    NonNullSpec(records);
    FilterSpec(NonNull(records), (raw: RawThread) => ShouldInclude(config, raw));
  }

  /**
   * One thread of the result per kept record, in order: the record as `from`
   * builds it, except that its async fields may have been set.
   */
  lemma CollectedThreads(config: CoreConfig.ThreadScopeConfig, ds: seq<Detector>,
                         records: seq<Option<RawThread>>, now: int)
    ensures |Collected(config, ds, records, now)| == |Kept(config, records)| <= |records|
    ensures forall i :: 0 <= i < |Kept(config, records)| ==>
      SameExceptAsync(FromRecord(Kept(config, records)[i], now), Collected(config, ds, records, now)[i])
  {
    KeptRecords(config, records);
    var kept := Kept(config, records);
    forall i | 0 <= i < |kept|
      ensures SameExceptAsync(FromRecord(kept[i], now), Collected(config, ds, records, now)[i])
    {
      AnnotatedSameExceptAsync(ds, FromRecord(kept[i], now), now);
    }
  }

  /** The detector list `initializeDetectors` builds, by kind. */
  function InitialKinds(config: CoreConfig.ThreadScopeConfig): (ks: seq<DetectorKind>)
  {
    (if config.alerts.deadlockDetection then [DeadlockKind] else []) +
    (if config.advanced.enableAsyncDetection then [AsyncKind] else [])
  }

  /** The kinds of the entries of a detector list. */
  function Kinds(ds: seq<Detector>): (ks: seq<DetectorKind>)
    ensures |ks| == |ds| && forall i :: 0 <= i < |ds| ==> ks[i] == ds[i].kind
  {
    seq(|ds|, i requires 0 <= i < |ds| => ds[i].kind)
  }

  /** The default settings of the detector of each kind `initializeDetectors` creates. */
  function DefaultSettings(k: DetectorKind): (s: DetectorSettings)
  {
    if k == DeadlockKind then CoreDeadlock.DEFAULT else CoreAsync.DEFAULT
  }

  /**
   * With the detectors chosen from the configuration, a thread is marked
   * async exactly when asynchronous detection is configured and its score
   * reaches the default threshold of one half.
   */
  lemma InitialDetectorsMark(config: CoreConfig.ThreadScopeConfig, ds: seq<Detector>, t: ThreadInfo, now: int)
    requires Kinds(ds) == InitialKinds(config)
    requires forall i :: 0 <= i < |ds| ==> ds[i].settings == DefaultSettings(ds[i].kind)
    ensures (exists i :: 0 <= i < |ds| && Fires(ds[i], t, now)) <==>
      config.advanced.enableAsyncDetection && CoreAsync.Reaches(t.name, t.stackTrace, 5)
  {
    if config.advanced.enableAsyncDetection {
      var k := |ds| - 1;
      assert Kinds(ds)[k] == AsyncKind;
      if CoreAsync.Reaches(t.name, t.stackTrace, 5) {
        assert Fires(ds[k], t, now);
      }
    } else {
      forall i | 0 <= i < |ds| ensures !Fires(ds[i], t, now) {
        assert Kinds(ds)[i] == DeadlockKind;
      }
    }
  }

  /**
   * One pass of the loop in `applyDetections`: an enabled async detector
   * detects on the original thread `t` and, when positive, sets the async
   * fields of the result so far.
   */
  method ApplyDetector(d: Detector, t: ThreadInfo, r: ThreadInfo, now: int) returns (r': ThreadInfo)
    ensures var v := Verdict(d, t, now); r' == if Positive(v) then WithAsyncInfo(r, true, v.value.asyncType) else r
  {
    r' := r;
    if d.settings.enabled {
      if d.kind == AsyncKind {
        var detection := CoreAsync.Detect(d.settings, t, now);
        if detection.isAsync {
          r' := WithAsyncInfo(r, true, detection.asyncType);
        }
      }
    }
  }

  // ---------------------------------------------------------------------
  // The service
  // ---------------------------------------------------------------------

  class ThreadMonitorService {
    const config: CoreConfig.ThreadScopeConfig
    var detectors: seq<Detector>
    var listeners: seq<Listener>
    var running: bool
    /** Every call of a listener the service has made, oldest first. */
    var calls: seq<Call>

    /**
     * The constructor with `initializeDetectors`: a deadlock detector when
     * deadlock detection is configured, then an async detector when async
     * detection is, each with its default settings; no listener; not running.
     */
    constructor(config: CoreConfig.ThreadScopeConfig)
      ensures this.config == config && !running && listeners == [] && calls == []
      ensures Kinds(detectors) == InitialKinds(config)
      ensures forall i :: 0 <= i < |detectors| ==> detectors[i].settings == DefaultSettings(detectors[i].kind)
      ensures forall i :: 0 <= i < |detectors| ==> fresh(detectors[i])
    {
      var ds: seq<Detector> := [];
      if config.alerts.deadlockDetection {
        var d := new Detector(DeadlockKind, CoreDeadlock.DEFAULT);
        ds := ds + [d];
      }
      if config.advanced.enableAsyncDetection {
        var d := new Detector(AsyncKind, CoreAsync.DEFAULT);
        ds := ds + [d];
      }
      this.config := config;
      detectors := ds;
      listeners := [];
      running := false;
      calls := [];
    }

    function IsRunning(): (b: bool)
      reads this
    {
      running
    }

    /** `notifyEventListeners`: every listener is called in order, even after one that threw. */
    method Notify(event: MonitoringEvent)
      modifies this
      ensures calls == old(calls) + Notified(listeners, event)
      ensures detectors == old(detectors) && listeners == old(listeners) && running == old(running)
    {
      var i := 0;
      while i < |listeners|
        invariant 0 <= i <= |listeners|
        invariant calls == old(calls) + Notified(listeners[..i], event)
        invariant detectors == old(detectors) && listeners == old(listeners) && running == old(running)
      {
        var l := listeners[i];
        var threw := l.throwsOn(event);
        calls := calls + [Call(l, event, threw)];
        assert Notified(listeners[..i + 1], event) == Notified(listeners[..i], event) + [Call(l, event, threw)];
        i := i + 1;
      }
      assert listeners[..i] == listeners;
    }

    /** `start`: a no-op while running; otherwise running, and the listeners hear `ServiceStarted`. */
    method Start()
      modifies this
      ensures detectors == old(detectors) && listeners == old(listeners) && running
      ensures old(running) ==> calls == old(calls)
      ensures !old(running) ==> calls == old(calls) + Notified(listeners, ServiceStarted)
    {
      if running {
        return;
      }
      running := true;
      Notify(ServiceStarted);
    }

    /** `stop`: a no-op while stopped; otherwise stopped, and the listeners hear `ServiceStopped`. */
    method Stop()
      modifies this
      ensures detectors == old(detectors) && listeners == old(listeners) && !running
      ensures !old(running) ==> calls == old(calls)
      ensures old(running) ==> calls == old(calls) + Notified(listeners, ServiceStopped)
    {
      if !running {
        return;
      }
      running := false;
      Notify(ServiceStopped);
    }

    /** `applyDetections`: the detector list in order, each firing entry setting the async fields. */
    method ApplyDetections(t: ThreadInfo, now: int) returns (r: ThreadInfo)
      ensures r == Annotated(detectors, t, now)
    {
      r := t;
      ghost var vs := Verdicts(detectors, t, now);
      for i := 0 to |detectors|
        invariant r == Annotate(t, vs[..i])
      {
        r := ApplyDetector(detectors[i], t, r, now);
        assert vs[..i + 1][..i] == vs[..i];
      }
      assert vs[..|detectors|] == vs;
    }

    /**
     * `getAllThreads`: nothing while stopped; otherwise the JVM's records at
     * the configured stack depth through the pipeline, and the listeners hear
     * `ThreadsCollected` with the result. A negative depth fails the future
     * before any listener hears of it.
     */
    method GetAllThreads(threadInfo: int -> seq<Option<RawThread>>, now: int) returns (r: Fetch<seq<ThreadInfo>>)
      modifies this
      ensures detectors == old(detectors) && listeners == old(listeners) && running == old(running)
      ensures r.Threw? <==> running && config.advanced.maxStackTraceDepth < 0
      ensures !running ==> r == Ok([]) && calls == old(calls)
      ensures r.Threw? ==> calls == old(calls)
      ensures running && r.Ok? ==>
        r.value == Collected(config, detectors, threadInfo(config.advanced.maxStackTraceDepth), now) &&
        calls == old(calls) + Notified(listeners, ThreadsCollected(r.value))
    {
      if !running {
        return Ok([]);
      }
      var records := ThreadDump(threadInfo, config.advanced.maxStackTraceDepth);
      if records.Threw? {
        return Threw;
      }
      var kept := Kept(config, records.value);
      var threads := ConvertAll(kept, now);
      Notify(ThreadsCollected(threads));
      return Ok(threads);
    }

    /** The `map(ThreadInfo::from).map(this::applyDetections)` stage, one record at a time. */
    method ConvertAll(kept: seq<RawThread>, now: int) returns (threads: seq<ThreadInfo>)
      ensures threads == Converted(detectors, kept, now)
    {
      threads := [];
      for i := 0 to |kept|
        invariant |threads| == i
        invariant forall j :: 0 <= j < i ==> threads[j] == Entry(detectors, kept[j], now)
      {
        var t := ConvertOne(kept[i], now);
        threads := threads + [t];
      }
    }

    /** `from`, then `applyDetections`, on one record. */
    method ConvertOne(raw: RawThread, now: int) returns (t: ThreadInfo)
      ensures t == Entry(detectors, raw, now)
    {
      t := From(raw, now);
      t := ApplyDetections(t, now);
    }

    /** `getThreadsByState`: exactly the collected threads in that state, in order; it fails when `getAllThreads` does. */
    method GetThreadsByState(state: ThreadState, threadInfo: int -> seq<Option<RawThread>>, now: int)
      returns (r: Fetch<seq<ThreadInfo>>)
      modifies this
      ensures detectors == old(detectors) && listeners == old(listeners) && running == old(running)
      ensures r.Threw? <==> running && config.advanced.maxStackTraceDepth < 0
      ensures r.Threw? ==> calls == old(calls)
      ensures r.Ok? ==> var all := if running then Collected(config, detectors, threadInfo(config.advanced.maxStackTraceDepth), now) else [];
        r.value == Filter(all, (t: ThreadInfo) => t.state == state) && IsSubsequence(r.value, all) &&
        (forall t :: t in r.value <==> t in all && t.state == state) &&
        calls == old(calls) + (if running then Notified(listeners, ThreadsCollected(all)) else [])
    {
      var all := GetAllThreads(threadInfo, now);
      if all.Threw? {
        return Threw;
      }
      FilterSpec(all.value, (t: ThreadInfo) => t.state == state);
      return Ok(Filter(all.value, (t: ThreadInfo) => t.state == state));
    }

    /** `getAsyncThreads`: exactly the collected threads marked async, in order; it fails when `getAllThreads` does. */
    method GetAsyncThreads(threadInfo: int -> seq<Option<RawThread>>, now: int) returns (r: Fetch<seq<ThreadInfo>>)
      modifies this
      ensures detectors == old(detectors) && listeners == old(listeners) && running == old(running)
      ensures r.Threw? <==> running && config.advanced.maxStackTraceDepth < 0
      ensures r.Threw? ==> calls == old(calls)
      ensures r.Ok? ==> var all := if running then Collected(config, detectors, threadInfo(config.advanced.maxStackTraceDepth), now) else [];
        r.value == Filter(all, (t: ThreadInfo) => t.isAsyncThread) && IsSubsequence(r.value, all) &&
        (forall t :: t in r.value <==> t in all && t.isAsyncThread) &&
        calls == old(calls) + (if running then Notified(listeners, ThreadsCollected(all)) else [])
    {
      var all := GetAllThreads(threadInfo, now);
      if all.Threw? {
        return Threw;
      }
      FilterSpec(all.value, (t: ThreadInfo) => t.isAsyncThread);
      return Ok(Filter(all.value, (t: ThreadInfo) => t.isAsyncThread));
    }

    /** `addDetector`: appended at the end. */
    method AddDetector(d: Detector)
      modifies this
      ensures detectors == old(detectors) + [d]
      ensures listeners == old(listeners) && running == old(running) && calls == old(calls)
    {
      detectors := detectors + [d];
    }

    /** `removeDetector`: its first occurrence is taken out. */
    method RemoveDetector(d: Detector)
      modifies this
      ensures detectors == RemoveFirst(old(detectors), d)
      ensures listeners == old(listeners) && running == old(running) && calls == old(calls)
    {
      detectors := RemoveFirst(detectors, d);
    }

    /** `addEventListener`: appended at the end. */
    method AddEventListener(l: Listener)
      modifies this
      ensures listeners == old(listeners) + [l]
      ensures detectors == old(detectors) && running == old(running) && calls == old(calls)
    {
      listeners := listeners + [l];
    }

    /** `removeEventListener`: its first occurrence is taken out. */
    method RemoveEventListener(l: Listener)
      modifies this
      ensures listeners == RemoveFirst(old(listeners), l)
      ensures detectors == old(detectors) && running == old(running) && calls == old(calls)
    {
      listeners := RemoveFirst(listeners, l);
    }
  }

  /** Removing a listener just added gives the list back, if it was not there before. */
  lemma AddThenRemove(listeners: seq<Listener>, l: Listener)
    requires l !in listeners
    ensures RemoveFirst(listeners + [l], l) == listeners
  {
    var xs := listeners + [l];
    assert xs[..|listeners|] == listeners;
    RemoveFirstAt(xs, l, |listeners|);
  }

  /** Starting twice notifies once; the second start changes nothing. */
  method StartTwice(s: ThreadMonitorService)
    requires !s.running
    modifies s
    ensures s.running && s.calls == old(s.calls) + Notified(s.listeners, ServiceStarted)
    ensures s.listeners == old(s.listeners) && s.detectors == old(s.detectors)
  {
    s.Start();
    s.Start();
  }
}
