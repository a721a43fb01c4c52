/**
 * The new core's `AsyncThreadDetector`: a confidence score from the thread
 * name and stack, a threshold test, and a categoriser run only for threads
 * found async.
 *
 * The score is kept in tenths, as the detector reports it. The detector
 * adds `0.4`, `0.3` and a multiple of `0.1` in `double` arithmetic, so a
 * sum may miss its tenth. Two sums fall just below it (`0.7 + 0.1` and
 * `0.7 + 0.2`); `BelowTenth` marks those, and the threshold test takes them
 * into account. The other sums are their tenth or lie just above it (such
 * as `0.4 + 0.2`); such a sum passes the `>=` test against a threshold
 * given in tenths exactly when its tenth does.
 */
module CoreAsync {
  import opened Common
  import opened Management
  import opened AsyncNames
  import opened Detection
  import opened CoreThreadInfo

  const NAME: string := "AsyncThreadDetector"
  const DESCRIPTION: string := "Detects and categorizes async threads with confidence scoring"

  /** The no-argument constructor: enabled, threshold 0.5. */
  const DEFAULT: DetectorSettings := DetectorSettings(NAME, true, 5)

  /** The two-argument constructor. */
  function Configured(enabled: bool, confidenceThreshold: int): (d: DetectorSettings)
    ensures d.name == NAME && d.enabled == enabled && d.confidenceThreshold == confidenceThreshold
  {
    DetectorSettings(NAME, enabled, confidenceThreshold)
  }

  /** `AsyncDetectionResult`. */
  datatype AsyncDetectionResult = AsyncDetectionResult(
    isAsync: bool,
    asyncType: AsyncThreadType,
    confidence: int,
    metadata: DetectionMetadata)

  /** The stack's share of the score: one tenth per fragment occurrence, at most three. */
  function StackScore(trace: seq<StackFrame>): (s: int)
    ensures 0 <= s <= 3
    ensures s == 0 <==> forall i :: 0 <= i < |trace| ==> !IsAsyncClass(trace[i].className)
    ensures TraceMatches(trace) >= 3 ==> s == 3
  {
    TraceMatchesPositive(trace);
    var m := TraceMatches(trace);
    if |trace| > 0 && m > 0 then (if m < 3 then m else 3) else 0
  }

  /**
   * `calculateConfidence`, in tenths: four for the name pattern, three for a
   * known name, and the stack's share, capped at ten.
   */
  function Confidence(name: string, trace: seq<StackFrame>): (c: int)
    ensures 0 <= c <= 10
    ensures c == 0 <==> (!PatternMatch(name) && !KnownName(name) &&
      forall i :: 0 <= i < |trace| ==> !IsAsyncClass(trace[i].className))
    ensures !PatternMatch(name) && !KnownName(name) ==> c <= 3
    ensures PatternMatch(name) ==> c >= 4
  {
    var c := (if PatternMatch(name) then 4 else 0) + (if KnownName(name) then 3 else 0) + StackScore(trace);
    if c < 10 then c else 10
  }

  /** The two sums whose `double` value lies just below their tenth. */
  predicate BelowTenth(name: string, trace: seq<StackFrame>)
  {
    PatternMatch(name) && KnownName(name) && 1 <= TraceMatches(trace) <= 2
  }

  /** `confidence >= confidenceThreshold`, as the `double` comparison decides it. */
  predicate Reaches(name: string, trace: seq<StackFrame>, threshold: int)
  {
    Confidence(name, trace) > threshold || (Confidence(name, trace) == threshold && !BelowTenth(name, trace))
  }

  /** Only scores of eight and nine can fall short of a threshold they equal. */
  lemma ReachesExceptAtEightAndNine(name: string, trace: seq<StackFrame>, threshold: int)
    requires threshold != 8 && threshold != 9
    ensures Reaches(name, trace, threshold) <==> Confidence(name, trace) >= threshold
  {
    if BelowTenth(name, trace) {
      assert StackScore(trace) == TraceMatches(trace);
    }
  }

  /** The stack alone never reaches the default threshold: the name must match. */
  lemma StackAloneNotAsyncByDefault(name: string, trace: seq<StackFrame>)
    requires !PatternMatch(name) && !KnownName(name)
    ensures !Reaches(name, trace, DEFAULT.confidenceThreshold)
  {
  }

  /** A matching name with one async frame reaches the default threshold. */
  lemma PatternAndFrameAsyncByDefault(name: string, trace: seq<StackFrame>, i: nat)
    requires PatternMatch(name) && i < |trace| && IsAsyncClass(trace[i].className)
    ensures Reaches(name, trace, DEFAULT.confidenceThreshold)
  {
    StackScoreWitness(trace, i);
    if KnownName(name) {
      assert Confidence(name, trace) >= 8;
    } else {
      assert !BelowTenth(name, trace);
      assert Confidence(name, trace) >= 5;
    }
  }

  /** One async frame gives the stack at least one tenth. */
  lemma StackScoreWitness(trace: seq<StackFrame>, i: nat)
    requires i < |trace| && IsAsyncClass(trace[i].className)
    ensures StackScore(trace) >= 1
  {
    var s := StackScore(trace);
    assert s != 0 by {
      assert IsAsyncClass(trace[i].className);
    }
  }

  // Categorisation

  /** The tests of `categorizeAsyncThread`, one per category. */
  predicate FutureSigns(name: string, trace: seq<StackFrame>)
  {
    Contains(name, "CompletableFuture") || AnyFrame(trace, "CompletableFuture")
  }

  predicate ReactiveSigns(name: string, trace: seq<StackFrame>)
  {
    Contains(name, "Reactor") || Contains(name, "RxJava") || AnyFrame(trace, "Flux") ||
    AnyFrame(trace, "Mono") || AnyFrame(trace, "Observable")
  }

  predicate PoolSigns(name: string, trace: seq<StackFrame>)
  {
    Contains(name, "pool") || Contains(name, "worker")
  }

  predicate ServerSigns(name: string, trace: seq<StackFrame>)
  {
    Contains(name, "Tomcat") || Contains(name, "Jetty") || Contains(name, "Netty") || Contains(name, "Undertow")
  }

  predicate ScheduledSigns(name: string, trace: seq<StackFrame>)
  {
    Contains(name, "Scheduled") || Contains(name, "Timer") || AnyFrame(trace, "ScheduledExecutorService")
  }

  /** `categorizeAsyncThread`, in the order of its tests. */
  function Categorize(name: string, trace: seq<StackFrame>): (r: AsyncThreadType)
    ensures r != UNKNOWN
  {
    if FutureSigns(name, trace) then COMPLETABLE_FUTURE
    else if ReactiveSigns(name, trace) then REACTIVE_STREAMS
    else if PoolSigns(name, trace) then THREAD_POOL
    else if ServerSigns(name, trace) then WEB_SERVER
    else if ScheduledSigns(name, trace) then SCHEDULED_TASK
    else OTHER_ASYNC
  }

  /** The categoriser's tests as a table, first match wins. */
  const RULES: seq<Rule<AsyncThreadType>> := [
    Rule(COMPLETABLE_FUTURE, [InName("CompletableFuture"), InFrame("CompletableFuture")]),
    Rule(REACTIVE_STREAMS, [InName("Reactor"), InName("RxJava"), InFrame("Flux"), InFrame("Mono"), InFrame("Observable")]),
    Rule(THREAD_POOL, [InName("pool"), InName("worker")]),
    Rule(WEB_SERVER, [InName("Tomcat"), InName("Jetty"), InName("Netty"), InName("Undertow")]),
    Rule(SCHEDULED_TASK, [InName("Scheduled"), InName("Timer"), InFrame("ScheduledExecutorService")])]

  /** Each line of the table holds exactly when the matching test does. */
  lemma RulesMatchTests(name: string, trace: seq<StackFrame>)
    ensures AnyHolds(RULES[0].markers, name, trace) == FutureSigns(name, trace)
    ensures AnyHolds(RULES[1].markers, name, trace) == ReactiveSigns(name, trace)
    ensures AnyHolds(RULES[2].markers, name, trace) == PoolSigns(name, trace)
    ensures AnyHolds(RULES[3].markers, name, trace) == ServerSigns(name, trace)
    ensures AnyHolds(RULES[4].markers, name, trace) == ScheduledSigns(name, trace)
  {
    AnyHolds2(InName("CompletableFuture"), InFrame("CompletableFuture"), name, trace);
    AnyHolds5(InName("Reactor"), InName("RxJava"), InFrame("Flux"), InFrame("Mono"), InFrame("Observable"), name, trace);
    AnyHolds4(InName("RxJava"), InFrame("Flux"), InFrame("Mono"), InFrame("Observable"), name, trace);
    AnyHolds3(InFrame("Flux"), InFrame("Mono"), InFrame("Observable"), name, trace);
    AnyHolds2(InFrame("Mono"), InFrame("Observable"), name, trace);
    AnyHolds2(InName("pool"), InName("worker"), name, trace);
    AnyHolds4(InName("Tomcat"), InName("Jetty"), InName("Netty"), InName("Undertow"), name, trace);
    AnyHolds3(InName("Jetty"), InName("Netty"), InName("Undertow"), name, trace);
    AnyHolds2(InName("Netty"), InName("Undertow"), name, trace);
    AnyHolds3(InName("Scheduled"), InName("Timer"), InFrame("ScheduledExecutorService"), name, trace);
    AnyHolds2(InName("Timer"), InFrame("ScheduledExecutorService"), name, trace);
  }

  /**
   * The categoriser returns the category of the first line of the table
   * that holds, and `OTHER_ASYNC` when none does.
   */
  lemma CategorizeByRules(name: string, trace: seq<StackFrame>)
    ensures Categorize(name, trace) == FirstMatch(RULES, name, trace, OTHER_ASYNC)
  {
    RulesMatchTests(name, trace);
    assert RULES[1..][0] == RULES[1] && RULES[2..][0] == RULES[2];
    assert RULES[3..][0] == RULES[3] && RULES[4..][0] == RULES[4];
    assert RULES[1..][1..] == RULES[2..] && RULES[2..][1..] == RULES[3..];
    assert RULES[3..][1..] == RULES[4..] && |RULES[4..][1..]| == 0;
  }

  /** A thread named after `CompletableFuture` is categorised so, whatever else it shows. */
  lemma CompletableFutureFirst(name: string, trace: seq<StackFrame>)
    requires Contains(name, "CompletableFuture")
    ensures Categorize(name, trace) == COMPLETABLE_FUTURE
  {
  }

  // Detection

  function Metadata(d: DetectorSettings, now: int): (m: DetectionMetadata)
    ensures m.detectorName == d.name && m.timestamp == now
    ensures m.version == VERSION && m.description == DESCRIPTION
  {
    CreateMetadata(d, DESCRIPTION, now)
  }

  /**
   * `detect`: a disabled detector reports nothing; otherwise the score, the
   * threshold test, and the category only for a thread found async.
   */
  function Detect(d: DetectorSettings, t: ThreadInfo, now: int): (r: AsyncDetectionResult)
    ensures r.metadata == Metadata(d, now)
    ensures !d.enabled ==> !r.isAsync && r.asyncType == UNKNOWN && r.confidence == 0
    ensures d.enabled ==> r.confidence == Confidence(t.name, t.stackTrace) && (r.isAsync <==> Reaches(t.name, t.stackTrace, d.confidenceThreshold))
    ensures r.asyncType == UNKNOWN <==> !r.isAsync
    ensures r.isAsync ==> r.asyncType == Categorize(t.name, t.stackTrace)
  {
    if !d.enabled then AsyncDetectionResult(false, UNKNOWN, 0, Metadata(d, now))
    else
      var c := Confidence(t.name, t.stackTrace);
      var isAsync := Reaches(t.name, t.stackTrace, d.confidenceThreshold);
      AsyncDetectionResult(isAsync, if isAsync then Categorize(t.name, t.stackTrace) else UNKNOWN, c, Metadata(d, now))
  }

  /** `detectAll`: one result per thread, in order. */
  function DetectAll(d: DetectorSettings, ts: seq<ThreadInfo>, now: int): (rs: seq<AsyncDetectionResult>)
    ensures |rs| == |ts|
    ensures forall i :: 0 <= i < |ts| ==> rs[i] == Detect(d, ts[i], now)
  {
    seq(|ts|, i requires 0 <= i < |ts| => Detect(d, ts[i], now))
  }

  /** Raising the threshold can only turn async results into non-async ones. */
  lemma DetectThresholdMonotone(d: DetectorSettings, t: ThreadInfo, now: int, higher: int)
    requires d.confidenceThreshold <= higher
    ensures Detect(d.(confidenceThreshold := higher), t, now).isAsync ==> Detect(d, t, now).isAsync
  {
  }

  /** The detection of a thread depends on its name and stack only. */
  lemma DetectNameAndStackOnly(d: DetectorSettings, t: ThreadInfo, u: ThreadInfo, now: int)
    requires t.name == u.name && t.stackTrace == u.stackTrace
    ensures Detect(d, t, now) == Detect(d, u, now)
  {
  }

  /** A copy with other async fields is detected alike. */
  lemma DetectIgnoresAsyncFields(d: DetectorSettings, t: ThreadInfo, isAsync: bool, asyncType: AsyncThreadType, now: int)
    ensures Detect(d, WithAsyncInfo(t, isAsync, asyncType), now) == Detect(d, t, now)
  {
    DetectNameAndStackOnly(d, WithAsyncInfo(t, isAsync, asyncType), t, now);
  }

  // Examples

  /** The first letters of the known names; none is a lower-case letter. */
  lemma KnownNamesStartUpperCase(i: nat)
    requires i < |KNOWN_NAMES|
    ensures |KNOWN_NAMES[i]| > 0 && 'A' <= KNOWN_NAMES[i][0] <= 'Z'
  {
  }

  /**
   * An executor thread named like "pool-1" scores four tenths on its name
   * alone and is not async at the default threshold.
   */
  lemma PlainPoolThreadNotAsync()
    ensures Confidence("pool-1", []) == 4
    ensures !Reaches("pool-1", [], DEFAULT.confidenceThreshold)
  {
    var n := "pool-1";
    assert ToLowerAscii(n) == n;
    assert StartsWith(n, "pool");
    ContainsAnyAt(n, PATTERNS, 7);
    forall i | 0 <= i < |KNOWN_NAMES|
      ensures !Contains(n, KNOWN_NAMES[i])
    {
      KnownNamesStartUpperCase(i);
      FirstCharAbsent(n, KNOWN_NAMES[i]);
    }
    ContainsAnyIff(n, KNOWN_NAMES);
  }

  /** Of the async fragments, only "Mono" occurs in the class name "Mono". */
  lemma MonoCountsOnce()
    ensures CountContained("Mono", ASYNC_CLASSES) == 1
  {
    forall i | 0 <= i < |ASYNC_CLASSES| && i != 7
      ensures !Contains("Mono", ASYNC_CLASSES[i])
    {
      if i == 10 {
        NotContainsLonger("Mono", ASYNC_CLASSES[i]);
      } else {
        FirstCharAbsent("Mono", ASYNC_CLASSES[i]);
      }
    }
    assert StartsWith("Mono", ASYNC_CLASSES[7]);
    CountOnly("Mono", ASYNC_CLASSES, 7);
  }

  /** "ForkJoinPool" matches the name pattern through its lower-case "pool". */
  lemma ForkJoinPoolMatchesPattern()
    ensures PatternMatch("ForkJoinPool")
  {
    assert ToLowerAscii("ForkJoinPool") == "forkjoinpool";
    ContainsAtIndex("forkjoinpool", PATTERNS[7], 8);
    ContainsAnyAt("forkjoinpool", PATTERNS, 7);
  }

  /** "ForkJoinPool" matches the name pattern and is a known name. */
  lemma ForkJoinPoolNameSignals()
    ensures PatternMatch("ForkJoinPool") && KnownName("ForkJoinPool")
  {
    ForkJoinPoolMatchesPattern();
    assert StartsWith("ForkJoinPool", KNOWN_NAMES[0]);
  }

  /**
   * "ForkJoinPool" with one frame of a `Mono` class scores eight tenths,
   * but its `double` sum is below 0.8: a threshold of 0.8 rejects it.
   */
  lemma EightTenthsBelowThresholdEight()
    ensures Confidence("ForkJoinPool", [StackFrame("Mono", "")]) == 8
    ensures !Reaches("ForkJoinPool", [StackFrame("Mono", "")], 8)
  {
    var trace := [StackFrame("Mono", "")];
    ForkJoinPoolNameSignals();
    MonoCountsOnce();
    assert TraceMatches(trace) == 1 by {
      assert trace[1..] == [];
    }
  }
}
