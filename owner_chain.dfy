/**
 * The walk both deadlock detectors use to group deadlocked threads: starting
 * from one thread, follow "the thread that owns the lock I wait on" until a
 * thread waits on nothing, its lock has no owner, the owner is not among the
 * records, or the owner was already visited.
 *
 * The records are what `ThreadMXBean.getThreadInfo(ids)` returned; an entry
 * is `None` when the thread died in between.
 */
module OwnerChain {
  import opened Common
  import opened Management

  type Records = seq<Option<RawThread>>

  /** The ids of the non-null records. */
  function IdsOf(all: Records): (r: set<int>)
  {
    set i | 0 <= i < |all| && all[i].Some? :: all[i].value.id
  }

  lemma InIdsOf(all: Records, t: RawThread)
    requires Some(t) in all
    ensures t.id in IdsOf(all)
  {
    var i :| 0 <= i < |all| && all[i] == Some(t);
    assert all[i].Some? && all[i].value.id == t.id;
  }

  predicate HasId(e: Option<RawThread>, id: int)
  {
    e.Some? && e.value.id == id
  }

  /** The first non-null record at index `j` or later whose id is `id`. */
  function FindFrom(all: Records, id: int, j: nat): (r: Option<RawThread>)
    requires j <= |all|
    ensures r.Some? ==> Some(r.value) in all && r.value.id == id
    decreases |all| - j
  {
    if j == |all| then None
    else if HasId(all[j], id) then all[j]
    else FindFrom(all, id, j + 1)
  }

  /** The search finds nothing exactly when no record from `j` on has the id. */
  lemma {:induction false} FindFromNone(all: Records, id: int, j: nat)
    requires j <= |all|
    ensures FindFrom(all, id, j).None? <==> forall k :: j <= k < |all| ==> !HasId(all[k], id)
    decreases |all| - j
  {
    if j < |all| && !HasId(all[j], id) {
      FindFromNone(all, id, j + 1);
    }
  }

  /** The record of the thread owning the lock `t` waits on, when the walk can follow it. */
  function Owner(t: RawThread, all: Records): (r: Option<RawThread>)
    ensures r.Some? ==> Some(r.value) in all && r.value.id == t.lockOwnerId
  {
    if t.lockName.Some? && t.lockOwnerId != -1 then FindFrom(all, t.lockOwnerId, 0) else None
  }

  /** The walk can follow `t` exactly when it waits on an owned lock whose owner is among the records. */
  lemma OwnerFound(t: RawThread, all: Records)
    ensures Owner(t, all).Some? <==>
      t.lockName.Some? && t.lockOwnerId != -1 && t.lockOwnerId in IdsOf(all)
  {
    if t.lockName.Some? && t.lockOwnerId != -1 && t.lockOwnerId in IdsOf(all) {
      var i :| 0 <= i < |all| && all[i].Some? && all[i].value.id == t.lockOwnerId;
      assert HasId(all[i], t.lockOwnerId);
      FindFromNone(all, t.lockOwnerId, 0);
    }
    if Owner(t, all).Some? {
      InIdsOf(all, Owner(t, all).value);
    }
  }

  /**
   * The records `findCycle(t, all, cycle, processed)` adds to `cycle`, in
   * the order it adds them, when `processed` holds `done` on entry.
   */
  function Walk(t: RawThread, all: Records, done: set<int>): (w: seq<RawThread>)
    requires Some(t) in all
    decreases IdsOf(all) - done
  {
    if t.id in done then []
    else
      InIdsOf(all, t);
      match Owner(t, all)
      case None => [t]
      case Some(u) => [t] + Walk(u, all, done + {t.id})
  }

  function Ids(w: seq<RawThread>): (r: seq<int>)
    ensures |r| == |w|
    ensures forall k :: 0 <= k < |w| ==> r[k] == w[k].id
  {
    seq(|w|, k requires 0 <= k < |w| => w[k].id)
  }

  function Elems(s: seq<int>): (r: set<int>)
    ensures forall x :: x in r <==> x in s
  {
    set x | x in s
  }

  lemma IdsCons(t: RawThread, rest: seq<RawThread>)
    ensures Ids([t] + rest) == [t.id] + Ids(rest)
    ensures Elems(Ids([t] + rest)) == {t.id} + Elems(Ids(rest))
  {
    assert Ids([t] + rest) == [t.id] + Ids(rest);
  }

  /** Consecutive records of `w` are a thread and the owner of the lock it waits on. */
  predicate FollowsOwners(w: seq<RawThread>, all: Records)
  {
    forall k :: 0 <= k < |w| - 1 ==> Owner(w[k], all) == Some(w[k + 1])
  }

  /** One step of the walk: an undone `t` followed by the walk from its owner, if any. */
  lemma WalkStep(t: RawThread, all: Records, done: set<int>)
    requires Some(t) in all && t.id !in done
    ensures Owner(t, all).None? ==> Walk(t, all, done) == [t]
    ensures Owner(t, all).Some? ==>
      Walk(t, all, done) == [t] + Walk(Owner(t, all).value, all, done + {t.id})
  {
  }

  /** Every visited record comes from `all` and was not done before. */
  lemma {:induction false} WalkFresh(t: RawThread, all: Records, done: set<int>)
    requires Some(t) in all
    ensures var w := Walk(t, all, done);
      (w == [] <==> t.id in done) && (|w| > 0 ==> w[0] == t) &&
      forall k :: 0 <= k < |w| ==> Some(w[k]) in all && w[k].id !in done
    decreases IdsOf(all) - done
  {
    if t.id !in done {
      InIdsOf(all, t);
      WalkStep(t, all, done);
      var w := Walk(t, all, done);
      if Owner(t, all).Some? {
        var rest := Walk(Owner(t, all).value, all, done + {t.id});
        WalkFresh(Owner(t, all).value, all, done + {t.id});
        forall k | 0 <= k < |w| ensures Some(w[k]) in all && w[k].id !in done {
          if k > 0 { assert w[k] == rest[k - 1]; }
        }
      }
    }
  }

  /** No id is visited twice. */
  lemma {:induction false} WalkDistinct(t: RawThread, all: Records, done: set<int>)
    requires Some(t) in all
    ensures var w := Walk(t, all, done);
      forall i, j :: 0 <= i < j < |w| ==> w[i].id != w[j].id
    decreases IdsOf(all) - done
  {
    if t.id !in done {
      InIdsOf(all, t);
      WalkStep(t, all, done);
      var w := Walk(t, all, done);
      if Owner(t, all).Some? {
        var u := Owner(t, all).value;
        var rest := Walk(u, all, done + {t.id});
        WalkDistinct(u, all, done + {t.id});
        WalkFresh(u, all, done + {t.id});
        forall i, j | 0 <= i < j < |w| ensures w[i].id != w[j].id {
          assert w[j] == rest[j - 1];
          if i > 0 { assert w[i] == rest[i - 1]; }
        }
      }
    }
  }

  /** Each visited thread after the first owns the lock the one before it waits on. */
  lemma {:induction false} WalkFollows(t: RawThread, all: Records, done: set<int>)
    requires Some(t) in all
    ensures FollowsOwners(Walk(t, all, done), all)
    decreases IdsOf(all) - done
  {
    if t.id !in done {
      InIdsOf(all, t);
      WalkStep(t, all, done);
      var w := Walk(t, all, done);
      if Owner(t, all).Some? {
        var u := Owner(t, all).value;
        var rest := Walk(u, all, done + {t.id});
        WalkFollows(u, all, done + {t.id});
        WalkFresh(u, all, done + {t.id});
        forall k | 0 <= k < |w| - 1 ensures Owner(w[k], all) == Some(w[k + 1]) {
          if k > 0 { assert w[k] == rest[k - 1] && w[k + 1] == rest[k]; }
        }
      }
    }
  }

  /** The walk stops only at a thread with no owner to follow or whose owner was seen. */
  lemma {:induction false} WalkStops(t: RawThread, all: Records, done: set<int>)
    requires Some(t) in all
    ensures var w := Walk(t, all, done);
      |w| > 0 ==> Stopped(w[|w| - 1], all, done + Elems(Ids(w)))
    decreases IdsOf(all) - done
  {
    if t.id !in done {
      InIdsOf(all, t);
      WalkStep(t, all, done);
      var w := Walk(t, all, done);
      if Owner(t, all).Some? {
        var u := Owner(t, all).value;
        var rest := Walk(u, all, done + {t.id});
        WalkStops(u, all, done + {t.id});
        IdsCons(t, rest);
        if rest == [] {
          WalkFresh(u, all, done + {t.id});
        } else {
          assert w[|w| - 1] == rest[|rest| - 1];
        }
      } else {
        IdsCons(t, []);
      }
    }
  }

  /** The walk ends at `last`: there is no owner to follow, or the owner is in `seen`. */
  predicate Stopped(last: RawThread, all: Records, seen: set<int>)
  {
    Owner(last, all).None? || Owner(last, all).value.id in seen
  }

  /**
   * `findCycle`: `cycle` (the ids in the order added) and `processed` on
   * entry; both on exit. The ids this call adds are those of the walk from `t`.
   */
  method FindCycle(t: RawThread, all: Records, cycle: seq<int>, processed: set<int>)
    returns (cycle': seq<int>, processed': set<int>)
    requires Some(t) in all
    requires Elems(cycle) <= processed
    ensures cycle' == cycle + Ids(Walk(t, all, processed))
    ensures processed' == processed + Elems(Ids(Walk(t, all, processed)))
    decreases IdsOf(all) - processed
  {
    if t.id in processed {
      DoneIds(t, all, processed);
      return cycle, processed;
    }
    if t.id in cycle {
      assert false;
    }
    InIdsOf(all, t);
    Shrinks(IdsOf(all), processed, t.id);
    StillProcessed(cycle, processed, t.id);
    cycle', processed' := cycle + [t.id], processed + {t.id};
    var owner := LockOwner(t, all);
    if owner.Some? {
      cycle', processed' := FindCycle(owner.value, all, cycle', processed');
      FollowedStep(t, all, cycle, processed, cycle', processed');
    } else {
      LastStep(t, all, cycle, processed);
    }
  }

  /** After following the owner, the ids added are those of the walk from `t`. */
  lemma FollowedStep(t: RawThread, all: Records, cycle: seq<int>, processed: set<int>, c: seq<int>, p: set<int>)
    requires Some(t) in all && t.id !in processed && Owner(t, all).Some?
    requires c == (cycle + [t.id]) + Ids(Walk(Owner(t, all).value, all, processed + {t.id}))
    requires p == (processed + {t.id}) + Elems(Ids(Walk(Owner(t, all).value, all, processed + {t.id})))
    ensures c == cycle + Ids(Walk(t, all, processed))
    ensures p == processed + Elems(Ids(Walk(t, all, processed)))
  {
    var rest := Walk(Owner(t, all).value, all, processed + {t.id});
    var w := Walk(t, all, processed);
    StepIds(t, all, processed);
    SeqStep(cycle, t.id, Ids(rest), Ids(w));
    SetStep(processed, t.id, Elems(Ids(rest)), Elems(Ids(w)));
  }

  /** With no owner to follow, the walk from `t` is `t` alone. */
  lemma LastStep(t: RawThread, all: Records, cycle: seq<int>, processed: set<int>)
    requires Some(t) in all && t.id !in processed && Owner(t, all).None?
    ensures cycle + [t.id] == cycle + Ids(Walk(t, all, processed))
    ensures processed + {t.id} == processed + Elems(Ids(Walk(t, all, processed)))
  {
    StepIds(t, all, processed);
  }

  /** A walk from a processed thread adds nothing. */
  lemma DoneIds(t: RawThread, all: Records, done: set<int>)
    requires Some(t) in all && t.id in done
    ensures Ids(Walk(t, all, done)) == [] && Elems(Ids(Walk(t, all, done))) == {}
  {
  }

  /** Marking one more id of `ids` as processed leaves fewer to process. */
  lemma Shrinks(ids: set<int>, processed: set<int>, id: int)
    requires id in ids && id !in processed
    ensures ids - (processed + {id}) < ids - processed
  {
    assert id in ids - processed;
  }

  /** Adding an id to both the cycle and the processed set keeps the cycle's ids processed. */
  lemma StillProcessed(cycle: seq<int>, processed: set<int>, id: int)
    requires Elems(cycle) <= processed
    ensures Elems(cycle + [id]) <= processed + {id}
  {
  }

  /** The cycle after the step, regrouped. */
  lemma SeqStep(cycle: seq<int>, id: int, rest: seq<int>, whole: seq<int>)
    requires whole == [id] + rest
    ensures (cycle + [id]) + rest == cycle + whole
  {
  }

  /** The processed set after the step, regrouped. */
  lemma SetStep(processed: set<int>, id: int, rest: set<int>, whole: set<int>)
    requires whole == {id} + rest
    ensures (processed + {id}) + rest == processed + whole
  {
  }

  /** The ids one step of the walk adds: those of `t`, then those of the walk from its owner. */
  lemma StepIds(t: RawThread, all: Records, done: set<int>)
    requires Some(t) in all && t.id !in done
    ensures Owner(t, all).None? ==> Ids(Walk(t, all, done)) == [t.id] && Elems(Ids(Walk(t, all, done))) == {t.id}
    ensures Owner(t, all).Some? ==> var rest := Walk(Owner(t, all).value, all, done + {t.id});
      Ids(Walk(t, all, done)) == [t.id] + Ids(rest) &&
      Elems(Ids(Walk(t, all, done))) == {t.id} + Elems(Ids(rest))
  {
    WalkStep(t, all, done);
    if Owner(t, all).Some? {
      IdsCons(t, Walk(Owner(t, all).value, all, done + {t.id}));
    } else {
      IdsCons(t, []);
    }
  }

  /** The record of the thread owning the lock `t` waits on, if `t` waits and the owner is among the records. */
  method LockOwner(t: RawThread, all: Records) returns (owner: Option<RawThread>)
    ensures owner == Owner(t, all)
  {
    owner := None;
    if t.lockName.Some? {
      var lockOwnerId := t.lockOwnerId;
      if lockOwnerId != -1 {
        owner := FindOwner(all, lockOwnerId);
      }
    }
  }

  /** The loop over the records that looks for the owner's: the first record with that id. */
  method FindOwner(all: Records, id: int) returns (r: Option<RawThread>)
    ensures r == FindFrom(all, id, 0)
  {
    var j := 0;
    while j < |all|
      invariant 0 <= j <= |all|
      invariant FindFrom(all, id, 0) == FindFrom(all, id, j)
    {
      if all[j].Some? && all[j].value.id == id {
        return all[j];
      }
      j := j + 1;
    }
    return None;
  }
}
