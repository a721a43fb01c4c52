/**
 * The new core's `DeadlockDetector`: the owner-chain groups of the threads
 * the JVM reports as deadlocked, each scored by its size and kept when the
 * score reaches the detector's threshold.
 */
module CoreDeadlock {
  import opened Common
  import opened Management
  import opened OwnerChain
  import opened DeadlockScan
  import opened Detection
  import CoreThreadInfo
  import CycleClosure

  const NAME: string := "DeadlockDetector"
  const DESCRIPTION: string := "Detects deadlock cycles with confidence scoring"

  /** `new DeadlockDetector()`: enabled, threshold 0.8. */
  const DEFAULT: DetectorSettings := DetectorSettings(NAME, true, 8)

  /** `new DeadlockDetector(enabled, threshold)`. */
  function Configured(enabled: bool, confidenceThreshold: int): (d: DetectorSettings)
    ensures d.name == NAME && d.enabled == enabled && d.confidenceThreshold == confidenceThreshold
  {
    DetectorSettings(NAME, enabled, confidenceThreshold)
  }

  /** `DeadlockDetectionResult`. */
  datatype DeadlockDetectionResult = DeadlockDetectionResult(
    hasDeadlock: bool,
    confidence: int,
    involvedThreadIds: seq<int>,
    metadata: DetectionMetadata)

  /** `getMetadata()`, with `now` the clock value it reads. */
  function Metadata(d: DetectorSettings, now: int): (m: DetectionMetadata)
  {
    CreateMetadata(d, DESCRIPTION, now)
  }

  /** `detect(threadInfo)`: a single thread never shows a deadlock. */
  function Detect(d: DetectorSettings, t: CoreThreadInfo.ThreadInfo, now: int): (r: DeadlockDetectionResult)
    ensures !r.hasDeadlock && r.confidence == 0 && r.involvedThreadIds == []
    ensures r.metadata == Metadata(d, now)
  {
    DeadlockDetectionResult(false, 0, [], Metadata(d, now))
  }

  /** `calculateCycleConfidence`, in tenths. */
  function CycleConfidence(c: DeadlockCycle): (conf: int)
    ensures 5 <= conf <= 10
  {
    var size := |c.threadIds|;
    if size >= 4 then 10
    else if size == 3 then 9
    else if size == 2 then 8
    else 5
  }

  /** A larger cycle never scores lower, and every cycle of two or more threads scores at least 0.8. */
  lemma CycleConfidenceMonotone(c: DeadlockCycle, c': DeadlockCycle)
    requires |c.threadIds| <= |c'.threadIds|
    ensures CycleConfidence(c) <= CycleConfidence(c')
    ensures |c.threadIds| >= 2 ==> CycleConfidence(c) >= 8
    ensures CycleConfidence(c) == 10 <==> |c.threadIds| >= 4
  {
  }

  /** The result reported for one cycle. */
  function ResultOf(d: DetectorSettings, c: DeadlockCycle, now: int): (r: DeadlockDetectionResult)
  {
    DeadlockDetectionResult(true, CycleConfidence(c), c.threadIds, Metadata(d, now))
  }

  /** The results `processDeadlockCycles`' loop has collected after the cycles `cs`. */
  function Results(d: DetectorSettings, cs: seq<DeadlockCycle>, now: int): (rs: seq<DeadlockDetectionResult>)
    decreases |cs|
  {
    if |cs| == 0 then []
    else
      var c := cs[|cs| - 1];
      Results(d, cs[..|cs| - 1], now) +
        (if IsValidConfidence(d, CycleConfidence(c)) then [ResultOf(d, c, now)] else [])
  }

  /** The test `processDeadlockCycles` applies to each cycle's confidence. */
  function Passes(d: DetectorSettings): DeadlockCycle -> bool
  {
    c => IsValidConfidence(d, CycleConfidence(c))
  }

  /** The results are the passing cycles, in their order, each reported by `ResultOf`. */
  lemma {:induction false} ResultsFiltered(d: DetectorSettings, cs: seq<DeadlockCycle>, now: int)
    ensures var kept := Filter(cs, Passes(d));
      |Results(d, cs, now)| == |kept| &&
      forall k :: 0 <= k < |kept| ==> Results(d, cs, now)[k] == ResultOf(d, kept[k], now)
    decreases |cs|
  {
    if |cs| > 0 {
      var init, c := cs[..|cs| - 1], cs[|cs| - 1];
      ResultsFiltered(d, init, now);
      assert cs == init + [c];
      FilterAppend(init, c, Passes(d));
    }
  }

  /**
   * The results are exactly the cycles whose confidence reaches the
   * threshold, in the order of the cycles, each reported as a deadlock with
   * its own confidence.
   */
  lemma ResultsSpec(d: DetectorSettings, cs: seq<DeadlockCycle>, now: int)
    ensures var kept := Filter(cs, Passes(d));
      |Results(d, cs, now)| == |kept| &&
      forall k :: 0 <= k < |kept| ==> Results(d, cs, now)[k] == ResultOf(d, kept[k], now)
    ensures |Results(d, cs, now)| <= |cs|
    ensures forall r :: r in Results(d, cs, now) <==>
      exists c :: c in cs && IsValidConfidence(d, CycleConfidence(c)) && r == ResultOf(d, c, now)
  {
    ResultsFiltered(d, cs, now);
    FilterSpec(cs, Passes(d));
    ResultsMembers(d, cs, now);
  }

  lemma {:induction false} ResultsMembers(d: DetectorSettings, cs: seq<DeadlockCycle>, now: int)
    ensures forall r :: r in Results(d, cs, now) <==>
      exists c :: c in cs && IsValidConfidence(d, CycleConfidence(c)) && r == ResultOf(d, c, now)
    decreases |cs|
  {
    if |cs| > 0 {
      var init, c := cs[..|cs| - 1], cs[|cs| - 1];
      ResultsMembers(d, init, now);
      assert cs == init + [c];
      forall r ensures r in Results(d, cs, now) <==>
        exists c' :: c' in cs && IsValidConfidence(d, CycleConfidence(c')) && r == ResultOf(d, c', now)
      {
        if r in Results(d, init, now) {
          var c' :| c' in init && IsValidConfidence(d, CycleConfidence(c')) && r == ResultOf(d, c', now);
          assert c' in cs;
        }
        if exists c' :: c' in cs && IsValidConfidence(d, CycleConfidence(c')) && r == ResultOf(d, c', now) {
          var c' :| c' in cs && IsValidConfidence(d, CycleConfidence(c')) && r == ResultOf(d, c', now);
          if c' != c {
            assert c' in init;
          }
        }
      }
    }
  }

  /** A threshold of at most 0.8 keeps every cycle of two or more threads, in order. */
  lemma {:induction false} ResultsKeepAll(d: DetectorSettings, cs: seq<DeadlockCycle>, now: int)
    requires d.confidenceThreshold <= 8
    requires forall k :: 0 <= k < |cs| ==> |cs[k].threadIds| >= 2
    ensures |Results(d, cs, now)| == |cs|
    ensures forall k :: 0 <= k < |cs| ==> Results(d, cs, now)[k] == ResultOf(d, cs[k], now)
    decreases |cs|
  {
    if |cs| > 0 {
      ResultsKeepAll(d, cs[..|cs| - 1], now);
    }
  }

  lemma ResultsStep(d: DetectorSettings, cs: seq<DeadlockCycle>, i: nat, now: int)
    requires i < |cs|
    ensures Results(d, cs[..i + 1], now) == Results(d, cs[..i], now) +
      (if IsValidConfidence(d, CycleConfidence(cs[i])) then [ResultOf(d, cs[i], now)] else [])
  {
    assert cs[..i + 1][..i] == cs[..i];
  }

  /** `processDeadlockCycles`: group the records, score each cycle, keep the valid ones. */
  method ProcessDeadlockCycles(d: DetectorSettings, all: Records, now: int)
    returns (results: seq<DeadlockDetectionResult>)
    ensures results == Results(d, CyclesOf(all), now)
  {
    var cycles := AnalyzeDeadlockCycles(all);
    results := [];
    for i := 0 to |cycles|
      invariant results == Results(d, cycles[..i], now)
    {
      ResultsStep(d, cycles, i, now);
      var confidence := CycleConfidence(cycles[i]);
      if IsValidConfidence(d, confidence) {
        results := results + [ResultOf(d, cycles[i], now)];
      }
    }
    assert cycles[..|cycles|] == cycles;
  }

  /** Every result of one batch: a deadlock of at least two distinct ids that passed the threshold. */
  lemma ResultsOfCyclesWellFormed(d: DetectorSettings, all: Records, now: int, r: DeadlockDetectionResult)
    requires r in Results(d, CyclesOf(all), now)
    ensures r.hasDeadlock && r.metadata == Metadata(d, now)
    ensures |r.involvedThreadIds| >= 2 && Distinct(r.involvedThreadIds)
    ensures Elems(r.involvedThreadIds) <= IdsOf(all)
    ensures r.confidence == CycleConfidence(DeadlockCycle(r.involvedThreadIds[0], r.involvedThreadIds))
    ensures IsValidConfidence(d, r.confidence) && 8 <= r.confidence <= 10
  {
    ResultsSpec(d, CyclesOf(all), now);
    var c :| c in CyclesOf(all) && IsValidConfidence(d, CycleConfidence(c)) && r == ResultOf(d, c, now);
    CyclesWellFormed(all, c);
  }

  /** One list of ids handed to `processDeadlockCycles`: skipped when null or empty. */
  function Batch(d: DetectorSettings, live: Fetch<map<int, RawThread>>, ids: Fetch<Option<seq<int>>>, now: int): (r: Fetch<seq<DeadlockDetectionResult>>)
  {
    match ids
    case Threw => Threw
    case Ok(None) => Ok([])
    case Ok(Some(xs)) =>
      if |xs| == 0 then Ok([])
      else
        match ThreadInfos(live, xs)
        case Threw => Threw
        case Ok(all) => Ok(Results(d, CyclesOf(all), now))
  }

  /**
   * How `detectAll` combines its steps: nothing when disabled, nothing when
   * any call it reaches throws, the monitor batch only when supported.
   */
  function Combine(enabled: bool, first: Fetch<seq<DeadlockDetectionResult>>, supported: Fetch<bool>,
    second: Fetch<seq<DeadlockDetectionResult>>): (rs: seq<DeadlockDetectionResult>)
  {
    if !enabled || first.Threw? || supported.Threw? then []
    else if !supported.value then first.value
    else if second.Threw? then []
    else first.value + second.value
  }

  /** What `detectAll` returns. */
  function DetectAllOf(d: DetectorSettings, jvm: Jvm, now: int): (rs: seq<DeadlockDetectionResult>)
  {
    Combine(d.enabled, Batch(d, jvm.live, jvm.deadlocked, now), jvm.monitorSupported,
      Batch(d, jvm.monitorLive, jvm.monitorDeadlocked, now))
  }

  /**
   * `detectAll(threadInfos)`. The list argument is never read: the records
   * come from the JVM. Any exception yields the empty list.
   */
  method DetectAll(d: DetectorSettings, jvm: Jvm, threadInfos: seq<CoreThreadInfo.ThreadInfo>, now: int)
    returns (results: seq<DeadlockDetectionResult>)
    ensures results == DetectAllOf(d, jvm, now)
  {
    if !d.enabled {
      return [];
    }
    var first := BatchOf(d, jvm.live, jvm.deadlocked, now);
    if first.Threw? {
      return [];
    }
    results := first.value;
    var supported := jvm.monitorSupported;
    if supported.Threw? {
      return [];
    }
    if supported.value {
      var second := BatchOf(d, jvm.monitorLive, jvm.monitorDeadlocked, now);
      if second.Threw? {
        return [];
      }
      results := results + second.value;
    }
  }

  /** The guarded call to `processDeadlockCycles` for one list of ids. */
  method BatchOf(d: DetectorSettings, live: Fetch<map<int, RawThread>>, ids: Fetch<Option<seq<int>>>, now: int)
    returns (r: Fetch<seq<DeadlockDetectionResult>>)
    ensures r == Batch(d, live, ids, now)
  {
    match ids {
      case Threw =>
        return Threw;
      case Ok(found) =>
        if found.None? || |found.value| == 0 {
          return Ok([]);
        }
        var infos := ThreadInfos(live, found.value);
        match infos {
          case Threw =>
            return Threw;
          case Ok(all) =>
            var rs := ProcessDeadlockCycles(d, all, now);
            return Ok(rs);
        }
    }
  }

  /** Disabled, or a failing first call, gives no results at all. */
  lemma DetectAllEmpty(d: DetectorSettings, jvm: Jvm, now: int)
    requires !d.enabled || jvm.deadlocked.Threw? || jvm.monitorSupported.Threw?
    ensures DetectAllOf(d, jvm, now) == []
  {
  }

  /**
   * A failing second `getThreadInfo` call drops the first batch's results
   * too: the exception reaches the `catch`, which returns the empty list.
   */
  lemma MonitorLookupThrows(d: DetectorSettings, jvm: Jvm, now: int)
    requires d.enabled && jvm.monitorSupported == Ok(true)
    requires jvm.monitorDeadlocked.Ok? && jvm.monitorDeadlocked.value.Some? && |jvm.monitorDeadlocked.value.value| > 0
    requires jvm.monitorLive.Threw?
    ensures DetectAllOf(d, jvm, now) == []
  {
  }

  /** Every result of one batch is well formed. */
  lemma BatchWellFormed(d: DetectorSettings, live: Fetch<map<int, RawThread>>, ids: Fetch<Option<seq<int>>>, now: int, r: DeadlockDetectionResult)
    requires Batch(d, live, ids, now).Ok? && r in Batch(d, live, ids, now).value
    ensures r.hasDeadlock && r.metadata == Metadata(d, now)
    ensures |r.involvedThreadIds| >= 2 && Distinct(r.involvedThreadIds)
    ensures IsValidConfidence(d, r.confidence) && 8 <= r.confidence <= 10
    ensures r.confidence == CycleConfidence(DeadlockCycle(r.involvedThreadIds[0], r.involvedThreadIds))
  {
    var xs := ids.value.value;
    var all := ThreadInfos(live, xs).value;
    ResultsOfCyclesWellFormed(d, all, now, r);
  }

  /**
   * Every result `detectAll` returns is a deadlock of at least two distinct
   * threads whose size-based confidence reached the threshold.
   */
  lemma DetectAllWellFormed(d: DetectorSettings, jvm: Jvm, now: int, r: DeadlockDetectionResult)
    requires r in DetectAllOf(d, jvm, now)
    ensures r.hasDeadlock && r.metadata == Metadata(d, now)
    ensures |r.involvedThreadIds| >= 2 && Distinct(r.involvedThreadIds)
    ensures IsValidConfidence(d, r.confidence) && 8 <= r.confidence <= 10
    ensures r.confidence == CycleConfidence(DeadlockCycle(r.involvedThreadIds[0], r.involvedThreadIds))
  {
    var a := Batch(d, jvm.live, jvm.deadlocked, now);
    if r in a.value {
      BatchWellFormed(d, jvm.live, jvm.deadlocked, now, r);
    } else {
      BatchWellFormed(d, jvm.monitorLive, jvm.monitorDeadlocked, now, r);
    }
  }

  /** The results for `findDeadlockedThreads` come first, those for monitor deadlocks after them. */
  lemma DeadlockedFirst(d: DetectorSettings, jvm: Jvm, now: int)
    requires d.enabled && jvm.monitorSupported == Ok(true)
    requires Batch(d, jvm.live, jvm.deadlocked, now).Ok? && Batch(d, jvm.monitorLive, jvm.monitorDeadlocked, now).Ok?
    ensures var first := Batch(d, jvm.live, jvm.deadlocked, now).value;
      var rs := DetectAllOf(d, jvm, now);
      |first| <= |rs| && rs[..|first|] == first &&
      rs[|first|..] == Batch(d, jvm.monitorLive, jvm.monitorDeadlocked, now).value
  {
  }

  /**
   * With a threshold of at most 0.8, when the JVM's deadlocked threads form
   * closed cycles (each waits on another of them and none is waited on
   * twice), every one of them still alive that does not wait on a lock it
   * owns itself is in some result of the batch.
   */
  lemma EveryDeadlockedThreadReported(d: DetectorSettings, all: Records, now: int, t: RawThread)
    requires d.confidenceThreshold <= 8
    requires CycleClosure.OnlyCycles(all) && Some(t) in all && t.lockOwnerId != t.id
    ensures exists r :: r in Results(d, CyclesOf(all), now) && t.id in r.involvedThreadIds
  {
    CycleClosure.EveryWaitingThreadReported(all, t);
    var c :| c in CyclesOf(all) && t.id in c.threadIds;
    var cs := CyclesOf(all);
    forall k | 0 <= k < |cs| ensures |cs[k].threadIds| >= 2 {
      CyclesWellFormed(all, cs[k]);
    }
    ResultsKeepAll(d, cs, now);
    var k :| 0 <= k < |cs| && cs[k] == c;
    assert Results(d, cs, now)[k] == ResultOf(d, c, now);
  }
}
