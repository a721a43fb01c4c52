/**
 * What the scan reports when its input is what `findDeadlockedThreads`
 * promises: every thread is blocked on a lock owned by another thread of
 * the input, and no two threads wait on the same owner, so ownership forms
 * disjoint cycles. Then every walk closes on the thread it started from,
 * every reported group is closed under lock ownership, and every thread that
 * does not own the lock it waits on is reported.
 */
module CycleClosure {
  import opened Common
  import opened Management
  import opened OwnerChain
  import opened DeadlockScan
  import JavaHash

  /** The id of a record; `-1` for a null one. */
  function IdAt(e: Option<RawThread>): int
  {
    if e.Some? then e.value.id else -1
  }

  /** The owner of the lock a record waits on; `-1` for a null one. */
  function OwnerAt(e: Option<RawThread>): int
  {
    if e.Some? then e.value.lockOwnerId else -1
  }

  /** A non-null record blocked on a lock that has an owner. */
  predicate Blocked(e: Option<RawThread>)
  {
    e.Some? && e.value.lockName.Some? && e.value.lockOwnerId != -1
  }

  function IdList(all: Records): (r: seq<int>)
    ensures |r| == |all| && forall i :: 0 <= i < |all| ==> r[i] == IdAt(all[i])
  {
    seq(|all|, i requires 0 <= i < |all| => IdAt(all[i]))
  }

  function OwnerList(all: Records): (r: seq<int>)
    ensures |r| == |all| && forall i :: 0 <= i < |all| ==> r[i] == OwnerAt(all[i])
  {
    seq(|all|, i requires 0 <= i < |all| => OwnerAt(all[i]))
  }

  /**
   * The records form disjoint cycles of lock ownership: every record is
   * blocked on a lock owned by another record, ids are unique, and no two
   * records wait on the same owner.
   */
  ghost predicate OnlyCycles(all: Records)
  {
    && (forall i :: 0 <= i < |all| ==> Blocked(all[i]))
    && Distinct(IdList(all))
    && Distinct(OwnerList(all))
    && (forall x :: x in OwnerList(all) ==> x in IdList(all))
  }

  /** The index of a record in the input. */
  lemma IndexOf(all: Records, r: RawThread) returns (i: nat)
    requires Some(r) in all
    ensures i < |all| && all[i] == Some(r)
  {
    i :| 0 <= i < |all| && all[i] == Some(r);
  }

  /** Under `OnlyCycles`, a record is determined by its id. */
  lemma SameId(all: Records, r: RawThread, q: RawThread)
    requires OnlyCycles(all) && Some(r) in all && Some(q) in all && r.id == q.id
    ensures r == q
  {
    var i := IndexOf(all, r);
    var j := IndexOf(all, q);
    assert IdList(all)[i] == IdList(all)[j];
  }

  /** Under `OnlyCycles`, a record is determined by the owner it waits on. */
  lemma SameOwner(all: Records, r: RawThread, q: RawThread)
    requires OnlyCycles(all) && Some(r) in all && Some(q) in all && r.lockOwnerId == q.lockOwnerId
    ensures r == q
  {
    var i := IndexOf(all, r);
    var j := IndexOf(all, q);
    assert OwnerList(all)[i] == OwnerList(all)[j];
  }

  /** Under `OnlyCycles`, every record waits on an owned lock whose owner is a record. */
  lemma WaitsOnRecord(all: Records, r: RawThread)
    requires OnlyCycles(all) && Some(r) in all
    ensures r.lockName.Some? && r.lockOwnerId != -1 && r.lockOwnerId in IdsOf(all)
  {
    var i := IndexOf(all, r);
    assert Blocked(all[i]);
    assert OwnerList(all)[i] in OwnerList(all);
    var j :| 0 <= j < |all| && IdList(all)[j] == r.lockOwnerId;
    assert Blocked(all[j]);
    assert all[j].value.id in IdsOf(all);
  }

  /** A set of ids holds a thread exactly when it holds the owner the thread waits on. */
  ghost predicate Closed(all: Records, p: set<int>)
  {
    forall r :: Some(r) in all ==> (r.id in p <==> r.lockOwnerId in p)
  }

  /** Under `OnlyCycles`, the walk can always follow a thread to its owner. */
  lemma OwnerIsNext(all: Records, r: RawThread)
    requires OnlyCycles(all) && Some(r) in all
    ensures Owner(r, all).Some? && Owner(r, all).value.id == r.lockOwnerId
  {
    WaitsOnRecord(all, r);
    OwnerFound(r, all);
  }

  /**
   * In an owner chain without repeated ids, the last thread cannot wait on
   * any thread but the first: each later one is already waited on by its
   * predecessor, and no two threads wait on the same owner.
   */
  lemma LastWaitsOnFirst(w: seq<RawThread>, all: Records)
    requires OnlyCycles(all)
    requires FollowsOwners(w, all)
    requires forall k :: 0 <= k < |w| ==> Some(w[k]) in all
    requires forall i, j :: 0 <= i < j < |w| ==> w[i].id != w[j].id
    ensures forall k :: 0 < k < |w| ==> w[|w| - 1].lockOwnerId != w[k].id
  {
    forall k | 0 < k < |w| ensures w[|w| - 1].lockOwnerId != w[k].id {
      assert Owner(w[k - 1], all) == Some(w[k]);
      assert w[k - 1].lockOwnerId == w[k].id;
      if w[|w| - 1].lockOwnerId == w[k].id {
        SameOwner(all, w[|w| - 1], w[k - 1]);
      }
    }
  }

  /** The walk from an unprocessed thread ends at the thread waiting on it. */
  lemma WalkCloses(t: RawThread, all: Records, done: set<int>)
    requires OnlyCycles(all) && Some(t) in all && t.id !in done && Closed(all, done)
    ensures var w := Walk(t, all, done);
      |w| > 0 && w[|w| - 1].lockOwnerId == t.id
  {
    WalkFresh(t, all, done);
    WalkDistinct(t, all, done);
    WalkFollows(t, all, done);
    WalkStops(t, all, done);
    var w := Walk(t, all, done);
    var last := w[|w| - 1];
    OwnerIsNext(all, last);
    var o := Owner(last, all).value;
    if o.id in done {
      assert false;
    }
    assert o.id in Ids(w);
    LastWaitsOnFirst(w, all);
  }

  /** Every thread of the walk waits on a thread of the walk. */
  lemma WalkOwnersInside(t: RawThread, all: Records, done: set<int>)
    requires OnlyCycles(all) && Some(t) in all && t.id !in done && Closed(all, done)
    ensures forall r :: Some(r) in all && r.id in Ids(Walk(t, all, done)) ==>
      r.lockOwnerId in Ids(Walk(t, all, done))
  {
    WalkFresh(t, all, done);
    WalkFollows(t, all, done);
    WalkCloses(t, all, done);
    var w := Walk(t, all, done);
    var ids := Ids(w);
    forall r | Some(r) in all && r.id in ids ensures r.lockOwnerId in ids {
      var k :| 0 <= k < |w| && ids[k] == r.id;
      SameId(all, r, w[k]);
      if k < |w| - 1 {
        OwnerIsNext(all, w[k]);
        assert ids[k + 1] == r.lockOwnerId;
      } else {
        assert ids[0] == r.lockOwnerId;
      }
    }
  }

  /** Every thread waiting on a thread of the walk is in the walk. */
  lemma WalkWaitersInside(t: RawThread, all: Records, done: set<int>)
    requires OnlyCycles(all) && Some(t) in all && t.id !in done && Closed(all, done)
    ensures forall r :: Some(r) in all && r.lockOwnerId in Ids(Walk(t, all, done)) ==>
      r.id in Ids(Walk(t, all, done))
  {
    WalkFresh(t, all, done);
    WalkFollows(t, all, done);
    WalkCloses(t, all, done);
    var w := Walk(t, all, done);
    var ids := Ids(w);
    forall r | Some(r) in all && r.lockOwnerId in ids ensures r.id in ids {
      var k :| 0 <= k < |w| && ids[k] == r.lockOwnerId;
      if k > 0 {
        OwnerIsNext(all, w[k - 1]);
        SameOwner(all, r, w[k - 1]);
      } else {
        SameOwner(all, r, w[|w| - 1]);
      }
      assert ids[k] == w[k].id;
    }
  }

  /** Adding the walk from an unprocessed thread keeps the processed set closed. */
  lemma WalkKeepsClosed(t: RawThread, all: Records, done: set<int>)
    requires OnlyCycles(all) && Some(t) in all && t.id !in done && Closed(all, done)
    ensures Closed(all, done + Elems(Ids(Walk(t, all, done))))
  {
    WalkOwnersInside(t, all, done);
    WalkWaitersInside(t, all, done);
  }

  /** The ids of all groups. */
  function Covered(gs: seq<Group>): (r: set<int>)
    decreases |gs|
  {
    if |gs| == 0 then {} else Covered(gs[..|gs| - 1]) + Elems(gs[|gs| - 1])
  }

  /** An id is covered exactly when some group holds it. */
  lemma {:induction false} CoveredMember(gs: seq<Group>, x: int) returns (i: nat)
    requires x in Covered(gs)
    ensures i < |gs| && x in gs[i]
    decreases |gs|
  {
    if x in Elems(gs[|gs| - 1]) {
      i := |gs| - 1;
    } else {
      i := CoveredMember(gs[..|gs| - 1], x);
    }
  }

  /** Every group is closed under ownership. */
  ghost predicate GroupsClosed(all: Records, gs: seq<Group>)
  {
    forall i, r :: 0 <= i < |gs| && Some(r) in all && r.id in gs[i] ==> r.lockOwnerId in gs[i]
  }

  /** Every processed thread that does not own its own lock is in a group. */
  ghost predicate WaitersCovered(all: Records, s: Scan)
  {
    forall r :: Some(r) in all && r.id in s.processed && r.lockOwnerId != r.id ==> r.id in Covered(s.groups)
  }

  /** A walk of one thread only happens for a thread owning the lock it waits on. */
  lemma SingleWalkOwnsItself(t: RawThread, all: Records, done: set<int>)
    requires OnlyCycles(all) && Some(t) in all && t.id !in done && Closed(all, done)
    requires |Walk(t, all, done)| <= 1
    ensures Elems(Ids(Walk(t, all, done))) == {t.id} && t.lockOwnerId == t.id
  {
    WalkFresh(t, all, done);
    WalkCloses(t, all, done);
    var w := Walk(t, all, done);
    assert w == [t];
    assert Ids(w) == [t.id];
  }

  lemma VisitGroupsClosed(all: Records, s: Scan, t: RawThread)
    requires OnlyCycles(all) && Some(t) in all && t.id !in s.processed
    requires Closed(all, s.processed) && GroupsClosed(all, s.groups)
    ensures GroupsClosed(all, Visit(all, s, t).groups)
  {
    var cycle := Ids(Walk(t, all, s.processed));
    if |cycle| > 1 {
      WalkOwnersInside(t, all, s.processed);
      var gs := Visit(all, s, t).groups;
      assert gs == s.groups + [cycle];
      forall i, r | 0 <= i < |gs| && Some(r) in all && r.id in gs[i] ensures r.lockOwnerId in gs[i] {
        if i < |s.groups| {
          assert gs[i] == s.groups[i];
        }
      }
    }
  }

  lemma VisitCovered(all: Records, s: Scan, t: RawThread)
    requires OnlyCycles(all) && Some(t) in all && t.id !in s.processed
    requires Closed(all, s.processed) && WaitersCovered(all, s)
    ensures WaitersCovered(all, Visit(all, s, t))
  {
    var cycle := Ids(Walk(t, all, s.processed));
    var s' := Visit(all, s, t);
    if |cycle| > 1 {
      assert s'.groups[..|s'.groups| - 1] == s.groups;
      assert Covered(s'.groups) == Covered(s.groups) + Elems(cycle);
    } else {
      SingleWalkOwnsItself(t, all, s.processed);
      assert s'.processed == s.processed + {t.id};
      forall r | Some(r) in all && r.id == t.id ensures r == t {
        SameId(all, r, t);
      }
    }
  }

  /** The ids processed after `n` records are closed under ownership. */
  ghost predicate ClosedAt(all: Records, n: nat)
    requires n <= |all|
  {
    Closed(all, ScanUpTo(all, n).processed)
  }

  /** The groups put after `n` records are closed under ownership. */
  ghost predicate GroupsClosedAt(all: Records, n: nat)
    requires n <= |all|
  {
    GroupsClosed(all, ScanUpTo(all, n).groups)
  }

  /** After `n` records, every processed thread that does not own its own lock is in a group. */
  ghost predicate CoveredAt(all: Records, n: nat)
    requires n <= |all|
  {
    WaitersCovered(all, ScanUpTo(all, n))
  }

  lemma {:induction false} ScanProcessedClosed(all: Records, n: nat)
    requires OnlyCycles(all) && n <= |all|
    ensures ClosedAt(all, n)
    decreases n
  {
    if n > 0 {
      ScanProcessedClosed(all, n - 1);
      ClosedStep(all, n);
    }
  }

  /** One step of the scan keeps the processed ids closed. */
  lemma ClosedStep(all: Records, n: nat)
    requires OnlyCycles(all) && 0 < n <= |all|
    requires ClosedAt(all, n - 1)
    ensures ClosedAt(all, n)
  {
    ScanUnfold(all, n);
    var s := ScanUpTo(all, n - 1);
    var e := all[n - 1];
    if e.Some? && e.value.id !in s.processed {
      WalkKeepsClosed(e.value, all, s.processed);
    }
  }

  lemma {:induction false} ScanGroupsClosed(all: Records, n: nat)
    requires OnlyCycles(all) && n <= |all|
    ensures GroupsClosedAt(all, n)
    decreases n
  {
    if n > 0 {
      ScanGroupsClosed(all, n - 1);
      ScanProcessedClosed(all, n - 1);
      GroupsClosedStep(all, n);
    }
  }

  /** One step of the scan keeps every group closed. */
  lemma GroupsClosedStep(all: Records, n: nat)
    requires OnlyCycles(all) && 0 < n <= |all|
    requires ClosedAt(all, n - 1) && GroupsClosedAt(all, n - 1)
    ensures GroupsClosedAt(all, n)
  {
    ScanUnfold(all, n);
    var s := ScanUpTo(all, n - 1);
    var e := all[n - 1];
    if e.Some? && e.value.id !in s.processed {
      VisitGroupsClosed(all, s, e.value);
    }
  }

  lemma {:induction false} ScanCovered(all: Records, n: nat)
    requires OnlyCycles(all) && n <= |all|
    ensures CoveredAt(all, n)
    decreases n
  {
    if n > 0 {
      ScanCovered(all, n - 1);
      ScanProcessedClosed(all, n - 1);
      CoveredStep(all, n);
    }
  }

  /** One step of the scan keeps the waiting threads it has processed covered. */
  lemma CoveredStep(all: Records, n: nat)
    requires OnlyCycles(all) && 0 < n <= |all|
    requires ClosedAt(all, n - 1) && CoveredAt(all, n - 1)
    ensures CoveredAt(all, n)
  {
    ScanUnfold(all, n);
    var e := all[n - 1];
    if e.Some? && e.value.id !in ScanUpTo(all, n - 1).processed {
      VisitCovered(all, ScanUpTo(all, n - 1), e.value);
    }
  }

  /** Every group of the final scan is reported. */
  lemma GroupReported(all: Records, i: nat)
    requires i < |ScanUpTo(all, |all|).groups|
    ensures var g := ScanUpTo(all, |all|).groups[i];
      ToCycle((Key(g), g)) in CyclesOf(all)
  {
    var gs := ScanUpTo(all, |all|).groups;
    var es := Keyed(gs);
    JavaHash.MapOrderMembers(es);
    assert es[i] in JavaHash.MapOrder(es);
    var j :| 0 <= j < |es| && JavaHash.MapOrder(es)[j] == es[i];
    assert CyclesOf(all)[j] == ToCycle(es[i]);
  }

  /** On such input, no thread of a reported cycle waits on a thread outside it. */
  lemma ReportedCyclesClosed(all: Records, c: DeadlockCycle, r: RawThread)
    requires OnlyCycles(all) && c in CyclesOf(all)
    requires Some(r) in all && r.id in c.threadIds
    ensures r.lockOwnerId in c.threadIds
  {
    ScanGroupsClosed(all, |all|);
    assert GroupsClosedAt(all, |all|);
    var i := CycleFromGroup(all, c);
    JavaHash.SetOrderMembers(ScanUpTo(all, |all|).groups[i]);
  }

  /** On such input, every thread that does not own the lock it waits on is reported. */
  lemma EveryWaitingThreadReported(all: Records, r: RawThread)
    requires OnlyCycles(all) && Some(r) in all && r.lockOwnerId != r.id
    ensures exists c :: c in CyclesOf(all) && r.id in c.threadIds
  {
    ScanCovered(all, |all|);
    assert CoveredAt(all, |all|);
    ScanGrouped(all, |all|);
    var s := ScanUpTo(all, |all|);
    var k :| 0 <= k < |all| && all[k] == Some(r);
    assert r.id in s.processed;
    var i := CoveredMember(s.groups, r.id);
    GroupReported(all, i);
    JavaHash.SetOrderMembers(s.groups[i]);
    assert r.id in ToCycle((Key(s.groups[i]), s.groups[i])).threadIds;
  }
}
