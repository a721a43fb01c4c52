/**
 * `analyzeDeadlockCycles`, shared by both deadlock detectors: scan the
 * records in order, walk the owner chain from every thread not yet
 * processed, and keep each walk of more than one thread in a
 * `HashMap<Long, Set<Long>>` under the first id its set iterates.
 *
 * A `HashSet<Long>` is represented by its elements in insertion order (no
 * element twice), a `HashMap<Long, V>` by its entries in insertion order;
 * `JavaHash` gives the order in which Java iterates either.
 */
module DeadlockScan {
  import opened Common
  import opened Management
  import opened OwnerChain
  import JavaHash

  /** `HashMap.put`: replaces the value of a present key in place, appends a new key. */
  function Put<V>(es: seq<(int, V)>, k: int, v: V): (r: seq<(int, V)>)
    decreases |es|
  {
    if |es| == 0 then [(k, v)]
    else if es[0].0 == k then [(k, v)] + es[1..]
    else [es[0]] + Put(es[1..], k, v)
  }

  /** Putting a key that is not present appends the entry. */
  lemma {:induction false} PutNew<V>(es: seq<(int, V)>, k: int, v: V)
    requires forall i :: 0 <= i < |es| ==> es[i].0 != k
    ensures Put(es, k, v) == es + [(k, v)]
    decreases |es|
  {
    if |es| > 0 {
      PutNew(es[1..], k, v);
      assert es == [es[0]] + es[1..];
    }
  }

  /** Putting a present key replaces its first entry and keeps the order. */
  lemma {:induction false} PutReplaces<V>(es: seq<(int, V)>, k: int, v: V, i: nat)
    requires i < |es| && es[i].0 == k
    requires forall j :: 0 <= j < i ==> es[j].0 != k
    ensures Put(es, k, v) == es[i := (k, v)]
    decreases |es|
  {
    if i > 0 {
      PutReplaces(es[1..], k, v, i - 1);
    }
  }

  /** The ids of one walk, in the order `findCycle` added them (never empty). */
  type Group = g: seq<int> | |g| > 0 witness [0]

  /**
   * The analysis state after some records: the groups the map received, in
   * the order they were put, and the processed ids. Only groups of more
   * than one thread are put.
   */
  datatype Scan = Scan(groups: seq<Group>, processed: set<int>)

  /** The state after the loop has looked at the first `n` records. */
  function ScanUpTo(all: Records, n: nat): (s: Scan)
    requires n <= |all|
    decreases n
  {
    if n == 0 then Scan([], {})
    else
      var s := ScanUpTo(all, n - 1);
      var e := all[n - 1];
      if e.None? || e.value.id in s.processed then s
      else
        assert e in all;
        Visit(all, s, e.value)
  }

  /** One iteration of the loop for an unprocessed record `t`. */
  function Visit(all: Records, s: Scan, t: RawThread): (s': Scan)
    requires Some(t) in all
  {
    var cycle := Ids(Walk(t, all, s.processed));
    var processed := s.processed + Elems(cycle);
    if |cycle| > 1 then Scan(s.groups + [cycle], processed)
    else Scan(s.groups, processed)
  }

  /**
   * A thread whose owner was processed already adds no group: its walk is
   * itself alone, and only its own id is marked processed.
   */
  lemma VisitProcessedOwner(all: Records, s: Scan, t: RawThread)
    requires Some(t) in all && t.id !in s.processed
    requires Owner(t, all).Some? && Owner(t, all).value.id in s.processed
    ensures Visit(all, s, t) == Scan(s.groups, s.processed + {t.id})
  {
    WalkStep(t, all, s.processed);
    assert Walk(t, all, s.processed) == [t];
    IdsCons(t, []);
  }

  /** A thread waiting on the lock owned by `owner`, as the JVM reports it. */
  function Waiter(id: int, owner: int): (t: RawThread)
    ensures t.id == id && t.lockName.Some? && t.lockOwnerId == owner
  {
    RawThread(id, "worker", BLOCKED, false, 5, Some("lock"), owner, Some("owner"), false, false, [], [], [])
  }

  /**
   * The grouping depends on the order of the records. With 1 and 2 waiting
   * on each other and 3 waiting on 1: in the order 1, 2, 3 the walk from 1
   * gives the group [1, 2], and 3's walk stops at the processed 1 and is
   * dropped; in the order 3, 1, 2 the walk from 3 gives the one group
   * [3, 1, 2], tail included.
   */
  lemma GroupingDependsOnOrder()
    ensures var a := [Some(Waiter(1, 2)), Some(Waiter(2, 1)), Some(Waiter(3, 1))];
      ScanUpTo(a, 3).groups == [[1, 2]]
    ensures var b := [Some(Waiter(3, 1)), Some(Waiter(1, 2)), Some(Waiter(2, 1))];
      ScanUpTo(b, 3).groups == [[3, 1, 2]]
  {
    var t1, t2, t3 := Waiter(1, 2), Waiter(2, 1), Waiter(3, 1);
    var a := [Some(t1), Some(t2), Some(t3)];
    assert HasId(a[1], 2) && HasId(a[0], 1) && !HasId(a[0], 2);
    assert Owner(t1, a) == Some(t2) && Owner(t2, a) == Some(t1) && Owner(t3, a) == Some(t1);
    OrderedPairGroup(a, t1, t2);
    ScanUnfold(a, 1);
    ScanUnfold(a, 2);
    ScanUnfold(a, 3);
    VisitProcessedOwner(a, ScanUpTo(a, 2), t3);
    var b := [Some(t3), Some(t1), Some(t2)];
    assert HasId(b[2], 2) && HasId(b[1], 1) && !HasId(b[0], 1) && !HasId(b[0], 2) && !HasId(b[1], 2);
    assert FindFrom(b, 2, 2) == Some(t2) && FindFrom(b, 2, 1) == FindFrom(b, 2, 2) && FindFrom(b, 2, 0) == FindFrom(b, 2, 1);
    assert FindFrom(b, 1, 1) == Some(t1) && FindFrom(b, 1, 0) == FindFrom(b, 1, 1);
    assert Owner(t1, b) == Some(t2) && Owner(t2, b) == Some(t1) && Owner(t3, b) == Some(t1);
    TailGroup(b, t3, t1, t2);
    ScanUnfold(b, 1);
    ScanUnfold(b, 2);
    ScanUnfold(b, 3);
  }

  /** Two threads waiting on each other, walked from the first. */
  lemma OrderedPairGroup(all: Records, t: RawThread, u: RawThread)
    requires Some(t) in all && Some(u) in all && t.id != u.id
    requires Owner(t, all) == Some(u) && Owner(u, all) == Some(t)
    ensures Visit(all, Scan([], {}), t) == Scan([[t.id, u.id]], {t.id, u.id})
  {
    WalkStep(t, all, {});
    WalkStep(u, all, {t.id});
    assert Walk(t, all, {t.id, u.id}) == [];
    assert {t.id} + {u.id} == {t.id, u.id};
    assert Walk(t, all, {}) == [t, u];
    assert Ids([t, u]) == [t.id, u.id];
    assert Elems([t.id, u.id]) == {t.id, u.id};
  }

  /** A thread waiting on one of two threads waiting on each other, walked from the waiter. */
  lemma TailGroup(all: Records, v: RawThread, t: RawThread, u: RawThread)
    requires Some(v) in all && Some(t) in all && Some(u) in all
    requires v.id != t.id && v.id != u.id && t.id != u.id
    requires Owner(v, all) == Some(t) && Owner(t, all) == Some(u) && Owner(u, all) == Some(t)
    ensures Visit(all, Scan([], {}), v) == Scan([[v.id, t.id, u.id]], {v.id, t.id, u.id})
  {
    WalkStep(v, all, {});
    WalkStep(t, all, {v.id});
    WalkStep(u, all, {v.id, t.id});
    assert {v.id} + {t.id} == {v.id, t.id};
    assert {v.id, t.id} + {u.id} == {v.id, t.id, u.id};
    assert Walk(t, all, {v.id, t.id, u.id}) == [];
    assert Walk(u, all, {v.id, t.id}) == [u];
    assert Walk(t, all, {v.id}) == [t, u];
    var none: set<int> := {};
    assert none + {v.id} == {v.id};
    assert Walk(v, all, {}) == [v] + [t, u] == [v, t, u];
    assert Ids([v, t, u]) == [v.id, t.id, u.id];
    assert Elems([v.id, t.id, u.id]) == {v.id, t.id, u.id};
    assert none + {v.id, t.id, u.id} == {v.id, t.id, u.id};
  }

  /** `cycle.iterator().next()`: the key a group is put under. */
  function Key(g: Group): (k: int)
  {
    JavaHash.SetOrder(g)[0]
  }

  /** The key is one of the group's ids. */
  lemma KeyInGroup(g: Group)
    ensures Key(g) in g
  {
    JavaHash.SetOrderMembers(g);
  }

  /** The map's entries in insertion order: each group under its key. */
  function Keyed(gs: seq<Group>): (es: seq<(int, seq<int>)>)
    ensures |es| == |gs|
    ensures forall i :: 0 <= i < |gs| ==> es[i] == (Key(gs[i]), gs[i])
  {
    seq(|gs|, i requires 0 <= i < |gs| => (Key(gs[i]), gs[i]))
  }

  /** The state after `n` records is the state after `n - 1`, or its visit of record `n - 1`. */
  lemma ScanUnfold(all: Records, n: nat)
    requires 0 < n <= |all|
    ensures var s := ScanUpTo(all, n - 1);
      var e := all[n - 1];
      if e.Some? && e.value.id !in s.processed then Some(e.value) in all && ScanUpTo(all, n) == Visit(all, s, e.value)
      else ScanUpTo(all, n) == s
  {
    assert all[n - 1] in all;
  }

  /** One deadlock cycle: `cycleId` and the thread ids in set iteration order. */
  datatype DeadlockCycle = DeadlockCycle(cycleId: int, threadIds: seq<int>)

  /** The entries of the map the scan of `all` builds, in its iteration order. */
  function Entries(all: Records): seq<(int, seq<int>)>
  {
    JavaHash.MapOrder(Keyed(ScanUpTo(all, |all|).groups))
  }

  /** The cycles `analyzeDeadlockCycles` returns, in map iteration order. */
  function CyclesOf(all: Records): (r: seq<DeadlockCycle>)
  {
    var es := Entries(all);
    seq(|es|, k requires 0 <= k < |es| => ToCycle(es[k]))
  }

  /** Cycle `i` is made from entry `i`. */
  lemma CycleAt(all: Records, i: nat)
    requires i < |Entries(all)|
    ensures |CyclesOf(all)| == |Entries(all)| && CyclesOf(all)[i] == ToCycle(Entries(all)[i])
  {
  }

  /** `new DeadlockCycle(entry.getKey(), new ArrayList<>(entry.getValue()))`. */
  function ToCycle(e: (int, seq<int>)): (c: DeadlockCycle)
  {
    DeadlockCycle(e.0, JavaHash.SetOrder(e.1))
  }

  /** One group is well formed: at least two distinct processed ids. */
  predicate GoodGroup(g: seq<int>, processed: set<int>)
  {
    && |g| >= 2
    && Distinct(g)
    && Elems(g) <= processed
  }

  /** What the scan keeps: well-formed, pairwise disjoint groups of processed ids of records. */
  predicate Grouped(all: Records, s: Scan)
  {
    && s.processed <= IdsOf(all)
    && (forall i :: 0 <= i < |s.groups| ==> GoodGroup(s.groups[i], s.processed))
    && (forall i, j :: 0 <= i < j < |s.groups| ==> Elems(s.groups[i]) !! Elems(s.groups[j]))
  }

  /** The walk from an unprocessed record yields fresh, distinct ids of records. */
  lemma WalkIds(t: RawThread, all: Records, done: set<int>)
    requires Some(t) in all
    ensures var c := Ids(Walk(t, all, done));
      Distinct(c) && Elems(c) !! done && Elems(c) <= IdsOf(all)
  {
    WalkFresh(t, all, done);
    WalkDistinct(t, all, done);
    var w := Walk(t, all, done);
    forall x | x in Elems(Ids(w)) ensures x !in done && x in IdsOf(all) {
      var k :| 0 <= k < |w| && Ids(w)[k] == x;
      InIdsOf(all, w[k]);
    }
  }

  /** Adding a fresh well-formed group keeps the groups well formed and disjoint. */
  lemma GroupedAdd(all: Records, s: Scan, cycle: Group)
    requires Grouped(all, s)
    requires |cycle| >= 2 && Distinct(cycle)
    requires Elems(cycle) !! s.processed && Elems(cycle) <= IdsOf(all)
    ensures Grouped(all, Scan(s.groups + [cycle], s.processed + Elems(cycle)))
  {
    var s' := Scan(s.groups + [cycle], s.processed + Elems(cycle));
    forall i | 0 <= i < |s'.groups| ensures GoodGroup(s'.groups[i], s'.processed) {
      if i < |s.groups| {
        assert s'.groups[i] == s.groups[i];
      }
    }
    forall i, j | 0 <= i < j < |s'.groups| ensures Elems(s'.groups[i]) !! Elems(s'.groups[j]) {
      assert s'.groups[i] == s.groups[i];
      if j < |s.groups| {
        assert s'.groups[j] == s.groups[j];
      }
    }
  }

  /** A visit keeps the groups well formed and disjoint, and processes `t`. */
  lemma VisitGrouped(all: Records, s: Scan, t: RawThread)
    requires Some(t) in all && t.id !in s.processed
    requires Grouped(all, s)
    ensures Grouped(all, Visit(all, s, t))
    ensures Visit(all, s, t).processed >= s.processed + {t.id}
  {
    var cycle := Ids(Walk(t, all, s.processed));
    WalkIds(t, all, s.processed);
    WalkFresh(t, all, s.processed);
    assert cycle[0] == t.id;
    if |cycle| > 1 {
      GroupedAdd(all, s, cycle);
    }
  }

  /** Putting the group of a visit appends its entry: its key is fresh. */
  lemma VisitPut(all: Records, s: Scan, t: RawThread)
    requires Some(t) in all && t.id !in s.processed
    requires Grouped(all, s)
    requires |Walk(t, all, s.processed)| > 1
    ensures var cycle := Ids(Walk(t, all, s.processed));
      Put(Keyed(s.groups), Key(cycle), cycle) == Keyed(Visit(all, s, t).groups)
  {
    var cycle: Group := Ids(Walk(t, all, s.processed));
    WalkIds(t, all, s.processed);
    KeyInGroup(cycle);
    var es := Keyed(s.groups);
    forall i | 0 <= i < |es| ensures es[i].0 != Key(cycle) {
      KeyInGroup(s.groups[i]);
      assert GoodGroup(s.groups[i], s.processed);
    }
    PutNew(es, Key(cycle), cycle);
    assert Keyed(s.groups + [cycle]) == es + [(Key(cycle), cycle)];
  }

  /**
   * The scan keeps well-formed, disjoint groups, and every non-null record
   * it has passed is processed.
   */
  lemma {:induction false} ScanGrouped(all: Records, n: nat)
    requires n <= |all|
    ensures Grouped(all, ScanUpTo(all, n))
    ensures forall k :: 0 <= k < n && all[k].Some? ==> all[k].value.id in ScanUpTo(all, n).processed
    decreases n
  {
    if n > 0 {
      ScanGrouped(all, n - 1);
      var s := ScanUpTo(all, n - 1);
      var e := all[n - 1];
      if e.Some? && e.value.id !in s.processed {
        assert e in all;
        VisitGrouped(all, s, e.value);
      }
    }
  }

  /**
   * `analyzeDeadlockCycles` of the core detector: null records (threads
   * that died) and processed threads are skipped.
   */
  method AnalyzeDeadlockCycles(all: Records) returns (cycles: seq<DeadlockCycle>)
    ensures cycles == CyclesOf(all)
  {
    var entries: seq<(int, seq<int>)> := [];
    var processed: set<int> := {};
    for i := 0 to |all|
      invariant Keyed(ScanUpTo(all, i).groups) == entries
      invariant ScanUpTo(all, i).processed == processed
    {
      entries, processed := AnalyzeOne(all, i, entries, processed);
    }
    var es := JavaHash.MapOrder(entries);
    cycles := seq(|es|, k requires 0 <= k < |es| => ToCycle(es[k]));
  }

  /**
   * One pass of the loop of `analyzeDeadlockCycles` over record `i`: a
   * thread not yet processed has its chain followed, and a chain of more
   * than one thread is put under its first id in set iteration order
   * (`Key`, which is not always the smallest: see `JavaHash.LargeIdsWrap`).
   */
  method AnalyzeOne(all: Records, i: nat, entries: seq<(int, seq<int>)>, processed: set<int>)
    returns (entries': seq<(int, seq<int>)>, processed': set<int>)
    requires i < |all|
    requires Keyed(ScanUpTo(all, i).groups) == entries && ScanUpTo(all, i).processed == processed
    ensures Keyed(ScanUpTo(all, i + 1).groups) == entries' && ScanUpTo(all, i + 1).processed == processed'
  {
    entries', processed' := entries, processed;
    ScanUnfold(all, i + 1);
    if all[i].Some? && all[i].value.id !in processed {
      ghost var s := ScanUpTo(all, i);
      ScanGrouped(all, i);
      var cycle;
      cycle, processed' := FindCycle(all[i].value, all, [], processed);
      assert cycle == Ids(Walk(all[i].value, all, s.processed));
      if |cycle| > 1 {
        VisitPut(all, s, all[i].value);
        entries' := Put(entries, Key(cycle), cycle);
      }
    }
  }

  /** Every reported cycle comes from a group of the final scan. */
  lemma CycleFromGroup(all: Records, c: DeadlockCycle) returns (i: nat)
    requires c in CyclesOf(all)
    ensures var gs := ScanUpTo(all, |all|).groups;
      i < |gs| && c == ToCycle((Key(gs[i]), gs[i]))
  {
    var es := Keyed(ScanUpTo(all, |all|).groups);
    JavaHash.MapOrderMembers(es);
    var r := CyclesOf(all);
    var k :| 0 <= k < |r| && r[k] == c;
    assert JavaHash.MapOrder(es)[k] in es;
    i :| 0 <= i < |es| && es[i] == JavaHash.MapOrder(es)[k];
  }

  /**
   * Every reported cycle lists at least two distinct ids of records, and its
   * id is the first of them.
   */
  lemma CyclesWellFormed(all: Records, c: DeadlockCycle)
    requires c in CyclesOf(all)
    ensures |c.threadIds| >= 2
    ensures c.cycleId == c.threadIds[0]
    ensures Distinct(c.threadIds)
    ensures Elems(c.threadIds) <= IdsOf(all)
  {
    ScanGrouped(all, |all|);
    var i := CycleFromGroup(all, c);
    CycleOfGroup(all, ScanUpTo(all, |all|), i);
  }

  /** Cycles with different ids share no thread. */
  lemma CyclesDisjoint(all: Records, c: DeadlockCycle, d: DeadlockCycle)
    requires c in CyclesOf(all) && d in CyclesOf(all) && c.cycleId != d.cycleId
    ensures Elems(c.threadIds) !! Elems(d.threadIds)
  {
    ScanGrouped(all, |all|);
    var s := ScanUpTo(all, |all|);
    var i := CycleFromGroup(all, c);
    var j := CycleFromGroup(all, d);
    CycleOfGroup(all, s, i);
    CycleOfGroup(all, s, j);
    assert i != j;
  }

  /** The cycle reported for one group of a well-formed scan. */
  lemma CycleOfGroup(all: Records, s: Scan, i: nat)
    requires Grouped(all, s) && i < |s.groups|
    ensures var c := ToCycle((Key(s.groups[i]), s.groups[i]));
      && |c.threadIds| >= 2
      && c.cycleId == c.threadIds[0]
      && Distinct(c.threadIds)
      && Elems(c.threadIds) == Elems(s.groups[i])
      && Elems(c.threadIds) <= IdsOf(all)
  {
    var g := s.groups[i];
    assert GoodGroup(g, s.processed);
    JavaHash.SetOrderMembers(g);
    JavaHash.SortByKeySpec(g, JavaHash.KeyBucket(JavaHash.Capacity(g)));
    DistinctPermutation(g, JavaHash.SetOrder(g));
  }
}
