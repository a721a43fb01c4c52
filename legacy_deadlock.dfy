/**
 * The legacy `detectors.DeadlockDetector`: the owner-chain grouping of the
 * threads the JVM reports as deadlocked, each group reported with the
 * records of its threads. There is no confidence score. Unlike the new
 * core, the grouping does not skip null records: a thread that died between
 * the two JVM calls makes it throw, and the exception leaves the list empty.
 */
module LegacyDeadlock {
  import opened Common
  import opened Management
  import opened OwnerChain
  import opened DeadlockScan
  import LegacyThreadInfo
  import JavaHash

  /** `DeadlockInfo`, as `detectDeadlocks` fills it. */
  datatype DeadlockInfo = DeadlockInfo(
    cycleId: int,
    threadIds: seq<int>,
    threads: seq<LegacyThreadInfo.ThreadInfo>,
    timestamp: int)

  /** No record is null. */
  predicate NoNulls(all: Records)
  {
    forall k :: 0 <= k < |all| ==> all[k].Some?
  }

  /** The first `n` records are not null. */
  ghost predicate PresentUpTo(all: Records, n: nat)
    requires n <= |all|
  {
    forall k :: 0 <= k < n ==> all[k].Some?
  }

  lemma PresentStep(all: Records, n: nat)
    requires n < |all| && PresentUpTo(all, n) && all[n].Some?
    ensures PresentUpTo(all, n + 1)
  {
  }

  function Present(all: Records): (rs: seq<RawThread>)
    requires NoNulls(all)
    ensures |rs| == |all| && forall k :: 0 <= k < |all| ==> Some(rs[k]) == all[k]
  {
    seq(|all|, k requires 0 <= k < |all| => all[k].value)
  }

  /** The conversion the legacy detector applies, which never reads CPU times. */
  function Converted(rs: seq<RawThread>, now: int): (ts: seq<LegacyThreadInfo.ThreadInfo>)
    ensures |ts| == |rs|
    ensures forall k :: 0 <= k < |rs| ==> ts[k] == LegacyThreadInfo.Convert(rs[k], 0, 0, now)
  {
    seq(|rs|, k requires 0 <= k < |rs| => LegacyThreadInfo.Convert(rs[k], 0, 0, now))
  }

  /** The records whose id is in `ids`, in input order. */
  function InGroup(rs: seq<RawThread>, ids: seq<int>): (r: seq<RawThread>)
  {
    Filter(rs, (x: RawThread) => x.id in ids)
  }

  /** The `DeadlockInfo` filled for one map entry, i.e. one cycle. */
  function InfoOf(all: Records, c: DeadlockCycle, now: int): (info: DeadlockInfo)
    requires NoNulls(all)
  {
    DeadlockInfo(c.cycleId, c.threadIds, Converted(InGroup(Present(all), c.threadIds), now), now)
  }

  /** The list `detectDeadlocks` returns for the records `all` of the deadlocked ids. */
  function InfosOf(all: Records, now: int): (infos: seq<DeadlockInfo>)
    requires NoNulls(all)
  {
    var cs := CyclesOf(all);
    seq(|cs|, k requires 0 <= k < |cs| => InfoOf(all, cs[k], now))
  }

  /**
   * What `detectDeadlocks` returns: the deadlocks found among the ids of
   * `findDeadlockedThreads`, or nothing when there are none or a call throws.
   * The monitor-deadlock branch never adds anything.
   */
  function DeadlocksOf(jvm: Jvm, now: int): (infos: seq<DeadlockInfo>)
  {
    match jvm.deadlocked
    case Threw => []
    case Ok(found) =>
      if found.None? || |found.value| == 0 then []
      else
        match ThreadInfos(jvm.live, found.value)
        case Threw => []
        case Ok(all) => if NoNulls(all) then InfosOf(all, now) else []
  }

  /**
   * `analyzeDeadlockCycles`: the groups in the order they were put, or an
   * exception at the first null record.
   */
  method AnalyzeDeadlockCycles(all: Records) returns (r: Fetch<seq<(int, seq<int>)>>)
    ensures NoNulls(all) ==> r == Ok(Keyed(ScanUpTo(all, |all|).groups))
    ensures !NoNulls(all) ==> r.Threw?
  {
    var entries := [];
    var processed := {};
    for i := 0 to |all|
      invariant Keyed(ScanUpTo(all, i).groups) == entries
      invariant ScanUpTo(all, i).processed == processed
      invariant PresentUpTo(all, i)
    {
      var present;
      present, entries, processed := AnalyzePresent(all, i, entries, processed);
      if !present {
        return Threw;
      }
    }
    r := Ok(entries);
  }

  /** One pass of the loop of `analyzeDeadlockCycles`, which throws at a null record. */
  method AnalyzePresent(all: Records, i: nat, entries: seq<(int, seq<int>)>, processed: set<int>)
    returns (present: bool, entries': seq<(int, seq<int>)>, processed': set<int>)
    requires i < |all| && PresentUpTo(all, i)
    requires Keyed(ScanUpTo(all, i).groups) == entries && ScanUpTo(all, i).processed == processed
    ensures present == all[i].Some?
    ensures present ==> PresentUpTo(all, i + 1)
    ensures present ==> Keyed(ScanUpTo(all, i + 1).groups) == entries' && ScanUpTo(all, i + 1).processed == processed'
  {
    present := all[i].Some?;
    entries', processed' := entries, processed;
    if present {
      PresentStep(all, i);
      entries', processed' := AnalyzeOne(all, i, entries, processed);
    }
  }

  /** `detectDeadlocks`: one `DeadlockInfo` per map entry, in map iteration order. */
  method DetectDeadlocks(jvm: Jvm, now: int) returns (deadlocks: seq<DeadlockInfo>)
    ensures deadlocks == DeadlocksOf(jvm, now)
  {
    deadlocks := [];
    if jvm.deadlocked.Threw? {
      return [];
    }
    var found := jvm.deadlocked.value;
    if found.Some? && |found.value| > 0 {
      var infos := ThreadInfos(jvm.live, found.value);
      if infos.Threw? {
        return [];
      }
      var all := infos.value;
      var grouped := AnalyzeDeadlockCycles(all);
      if grouped.Threw? {
        return [];
      }
      deadlocks := ReportCycles(all, grouped.value, now);
    }
    // The monitor-deadlock branch only logs; whatever it does, the list stays as it is.
  }

  /** The loop over the map's entries: one `DeadlockInfo` per cycle, in map iteration order. */
  method ReportCycles(all: Records, entries: seq<(int, seq<int>)>, now: int) returns (deadlocks: seq<DeadlockInfo>)
    requires NoNulls(all) && entries == Keyed(ScanUpTo(all, |all|).groups)
    ensures deadlocks == InfosOf(all, now)
  {
    deadlocks := [];
    var es := JavaHash.MapOrder(entries);
    assert es == Entries(all);
    InfosCount(all, es, now);
    for i := 0 to |es|
      invariant deadlocks == InfosOf(all, now)[..i]
    {
      var cycle := ToCycle(es[i]);
      InfosStep(all, es, now, i);
      deadlocks := deadlocks + [DeadlockInfo(cycle.cycleId, cycle.threadIds, Converted(InGroup(Present(all), cycle.threadIds), now), now)];
    }
    assert InfosOf(all, now)[..|es|] == InfosOf(all, now);
  }

  /** There is one info per entry of the map, in its iteration order `es`. */
  lemma InfosCount(all: Records, es: seq<(int, seq<int>)>, now: int)
    requires NoNulls(all) && es == Entries(all)
    ensures |InfosOf(all, now)| == |es|
  {
  }

  /** The list of infos grows by the info of entry `i`. */
  lemma InfosStep(all: Records, es: seq<(int, seq<int>)>, now: int, i: nat)
    requires NoNulls(all) && es == Entries(all) && i < |es|
    ensures i < |InfosOf(all, now)| &&
      InfosOf(all, now)[..i + 1] == InfosOf(all, now)[..i] + [InfoOf(all, ToCycle(es[i]), now)]
  {
    CycleAt(all, i);
    var infos := InfosOf(all, now);
    assert |infos| == |es| && infos[i] == InfoOf(all, ToCycle(es[i]), now);
    TakeOneMore(infos, i);
  }

  /** No deadlocked ids, a failing call, or a thread that died in between: nothing is reported. */
  lemma DeadlocksEmpty(jvm: Jvm, now: int)
    requires jvm.deadlocked.Threw? || jvm.deadlocked == Ok(None) || jvm.deadlocked == Ok(Some([])) ||
      jvm.live.Threw? ||
      (jvm.deadlocked.Ok? && jvm.deadlocked.value.Some? && exists i :: 0 <= i < |jvm.deadlocked.value.value| && jvm.deadlocked.value.value[i] !in jvm.live.value)
    ensures DeadlocksOf(jvm, now) == []
  {
    if jvm.deadlocked.Ok? && jvm.deadlocked.value.Some? && |jvm.deadlocked.value.value| > 0 && jvm.live.Ok? {
      var xs := jvm.deadlocked.value.value;
      var i :| 0 <= i < |xs| && xs[i] !in jvm.live.value;
      assert ThreadInfos(jvm.live, xs).value[i].None?;
    }
  }

  /** The monitor-deadlock calls never change the result. */
  lemma MonitorBranchAddsNothing(jvm: Jvm, now: int, supported: Fetch<bool>, monitorIds: Fetch<Option<seq<int>>>,
    monitorLive: Fetch<map<int, RawThread>>)
    ensures DeadlocksOf(jvm.(monitorSupported := supported, monitorDeadlocked := monitorIds, monitorLive := monitorLive), now) ==
      DeadlocksOf(jvm, now)
  {
    var jvm' := jvm.(monitorSupported := supported, monitorDeadlocked := monitorIds, monitorLive := monitorLive);
    if jvm.deadlocked.Ok? && jvm.deadlocked.value.Some? {
      assert ThreadInfos(jvm'.live, jvm.deadlocked.value.value) == ThreadInfos(jvm.live, jvm.deadlocked.value.value);
    }
  }

  /** Every info of the list is the info of one cycle. */
  lemma InfoFrom(all: Records, now: int, info: DeadlockInfo)
    requires NoNulls(all) && info in InfosOf(all, now)
    ensures exists k :: 0 <= k < |CyclesOf(all)| && info == InfoOf(all, CyclesOf(all)[k], now)
  {
    var infos := InfosOf(all, now);
    var k :| 0 <= k < |infos| && infos[k] == info;
    assert info == InfoOf(all, CyclesOf(all)[k], now);
  }

  /** The records of a group are exactly the converted records whose id is in it, in input order. */
  lemma InfoThreads(all: Records, c: DeadlockCycle, now: int)
    requires NoNulls(all)
    ensures var g := InGroup(Present(all), c.threadIds);
      IsSubsequence(g, Present(all)) &&
      (forall r :: r in g <==> r in Present(all) && r.id in c.threadIds) &&
      InfoOf(all, c, now).threads == Converted(g, now)
  {
    FilterSpec(Present(all), (x: RawThread) => x.id in c.threadIds);
  }

  /**
   * Every reported deadlock has at least two distinct thread ids, its
   * `cycleId` is the first of them, it carries one record for each present
   * thread of the group, and all of them come from the input.
   */
  lemma DeadlocksWellFormed(jvm: Jvm, now: int, info: DeadlockInfo)
    requires info in DeadlocksOf(jvm, now)
    ensures |info.threadIds| >= 2 && info.cycleId == info.threadIds[0] && Distinct(info.threadIds)
    ensures info.timestamp == now
    ensures forall t :: t in info.threads ==> t.id in info.threadIds
  {
    var all := ThreadInfos(jvm.live, jvm.deadlocked.value.value).value;
    InfoFrom(all, now, info);
    var cs := CyclesOf(all);
    var k :| 0 <= k < |cs| && info == InfoOf(all, cs[k], now);
    assert cs[k] in cs;
    CyclesWellFormed(all, cs[k]);
    GroupIds(all, cs[k], now);
  }

  /** Every record a deadlock carries belongs to one of its threads. */
  lemma GroupIds(all: Records, c: DeadlockCycle, now: int)
    requires NoNulls(all)
    ensures forall t :: t in InfoOf(all, c, now).threads ==> t.id in c.threadIds
  {
    var g := InGroup(Present(all), c.threadIds);
    FilterSpec(Present(all), (x: RawThread) => x.id in c.threadIds);
    var ts := Converted(g, now);
    forall t | t in ts ensures t.id in c.threadIds {
      var j :| 0 <= j < |g| && ts[j] == t;
      assert g[j] in g;
    }
  }

  /** Two reported deadlocks with different `cycleId`s share no thread. */
  lemma DeadlocksDisjoint(jvm: Jvm, now: int, a: DeadlockInfo, b: DeadlockInfo)
    requires a in DeadlocksOf(jvm, now) && b in DeadlocksOf(jvm, now) && a.cycleId != b.cycleId
    ensures Elems(a.threadIds) !! Elems(b.threadIds)
  {
    var all := ThreadInfos(jvm.live, jvm.deadlocked.value.value).value;
    InfoFrom(all, now, a);
    InfoFrom(all, now, b);
    var cs := CyclesOf(all);
    var i :| 0 <= i < |cs| && a == InfoOf(all, cs[i], now);
    var j :| 0 <= j < |cs| && b == InfoOf(all, cs[j], now);
    assert cs[i] in cs && cs[j] in cs;
    CyclesDisjoint(all, cs[i], cs[j]);
  }
}
