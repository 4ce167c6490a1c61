/** The lock handling that both locking wrappers contain (`ensure_lock`, `lock_ids_in_order`,
    `unlock`, `release`; src/queued_repo/repository.rs and src/read_model/queued.rs). A call
    that has to wait sees the lock's flag at each wake-up as an input, and gives up nothing:
    it returns false when it is still waiting after the last one. */
module KeyedLocks {
  import opened Locks
  import opened LockOrder

  /** The wait for a lock ends: it is free, or is found free at some wake-up. */
  predicate GetsThrough(locked: set<string>, id: string, wakeUps: seq<bool>)
  {
    id !in locked || exists i :: 0 <= i < |wakeUps| && !wakeUps[i]
  }

  /** How many locks of `order` are taken one after the other before one is not given. */
  function Taken(locked: set<string>, order: seq<string>, wakeUps: string -> seq<bool>): (n: nat)
    ensures n <= |order|
    ensures forall i :: 0 <= i < n ==> GetsThrough(locked, order[i], wakeUps(order[i]))
    ensures n < |order| ==> !GetsThrough(locked, order[n], wakeUps(order[n]))
  {
    if order == [] || !GetsThrough(locked, order[0], wakeUps(order[0])) then 0
    else 1 + Taken(locked, order[1..], wakeUps)
  }

  function AsSet(ids: seq<string>): set<string>
  {
    set id | id in ids
  }

  class LockTable {
    const manager: InMemoryLockManager
    ghost var held: set<string>

    constructor ()
      ensures Valid() && fresh(manager) && held == {}
    {
      manager := new InMemoryLockManager();
      held := {};
    }

    /** `held` are the ids whose lock is held by somebody. */
    ghost predicate Valid()
      reads this, manager, manager.locks.Values
    {
      && manager.Valid()
      && forall id :: id in held <==> id in manager.locks && manager.locks[id].locked
    }

    method Acquire(id: string, wakeUps: seq<bool>) returns (acquired: bool)
      requires Valid()
      modifies this, manager, manager.locks.Values
      ensures Valid() && fresh(manager.locks.Values - old(manager.locks.Values))
      ensures acquired == GetsThrough(old(held), id, wakeUps)
      ensures held == old(held) + {id}
    {
      var lock := manager.GetLock(id);
      acquired := lock.Lock(wakeUps);
      held := held + {id};
    }

    /** Unlock, and the same under the name `abort`; nobody asks who holds the lock. */
    method Unlock(id: string)
      requires Valid()
      modifies this, manager, manager.locks.Values
      ensures Valid() && fresh(manager.locks.Values - old(manager.locks.Values))
      ensures held == old(held) - {id}
    {
      var lock := manager.GetLock(id);
      var _ := lock.Unlock();
      held := held - {id};
    }

    /** Locks are taken one by one in increasing order, each once; a call that waits keeps
        the ones before it. */
    method LockIdsInOrder(ids: seq<string>, wakeUps: string -> seq<bool>) returns (acquired: bool)
      requires Valid()
      modifies this, manager, manager.locks.Values
      ensures Valid() && fresh(manager.locks.Values - old(manager.locks.Values))
      ensures var order := SortDedup(ids);
        var n := Taken(old(held), order, wakeUps);
        && acquired == (n == |order|)
        && held == old(held) + AsSet(order[..n])
    {
      var unique := SortDedup(ids);
      SortDedupIncreases(ids);
      ghost var before := held;
      for i := 0 to |unique|
        invariant Valid() && fresh(manager.locks.Values - old(manager.locks.Values))
        invariant Progress(before, unique, wakeUps, i, held)
      {
        var one := TakeNext(unique, i, wakeUps, before);
        if !one {
          return false;
        }
      }
      assert unique[..|unique|] == unique;
      acquired := true;
    }

    /** One round of the loop over `order`. */
    method TakeNext(order: seq<string>, i: nat, wakeUps: string -> seq<bool>, ghost before: set<string>) returns (acquired: bool)
      requires Valid() && Increasing(order) && i < |order| && Progress(before, order, wakeUps, i, held)
      modifies this, manager, manager.locks.Values
      ensures Valid() && fresh(manager.locks.Values - old(manager.locks.Values))
      ensures acquired ==> Progress(before, order, wakeUps, i + 1, held)
      ensures !acquired ==> Taken(before, order, wakeUps) == i && held == before + AsSet(order[..i])
    {
      ProgressStep(before, order, wakeUps, i);
      acquired := Acquire(order[i], wakeUps(order[i]));
    }

    method UnlockAll(ids: seq<string>)
      requires Valid()
      modifies this, manager, manager.locks.Values
      ensures Valid() && fresh(manager.locks.Values - old(manager.locks.Values))
      ensures held == old(held) - AsSet(ids)
    {
      for i := 0 to |ids|
        invariant Valid() && fresh(manager.locks.Values - old(manager.locks.Values))
        invariant held == old(held) - AsSet(ids[..i])
      {
        Unlock(ids[i]);
        assert AsSet(ids[..i + 1]) == AsSet(ids[..i]) + {ids[i]};
      }
      assert ids[..|ids|] == ids;
    }
  }

  /** The first `i` locks of `order` were given. */
  ghost predicate Progress(before: set<string>, order: seq<string>, wakeUps: string -> seq<bool>, i: nat, held: set<string>)
  {
    && i <= |order| && held == before + AsSet(order[..i])
    && Taken(before, order, wakeUps) == i + Taken(before, order[i..], wakeUps)
  }

  /** What the next lock depends on, and what follows from it. */
  lemma ProgressStep(before: set<string>, order: seq<string>, wakeUps: string -> seq<bool>, i: nat)
    requires Increasing(order) && i < |order| && Progress(before, order, wakeUps, i, before + AsSet(order[..i]))
    ensures var next, heldNow := order[i], before + AsSet(order[..i]);
      && (GetsThrough(heldNow, next, wakeUps(next)) <==> GetsThrough(before, next, wakeUps(next)))
      && (GetsThrough(before, next, wakeUps(next)) ==> Progress(before, order, wakeUps, i + 1, heldNow + {next}))
      && (!GetsThrough(before, next, wakeUps(next)) ==> Taken(before, order, wakeUps) == i && heldNow + {next} == heldNow)
  {
    assert order[i..][0] == order[i] && order[i..][1..] == order[i + 1..];
    assert AsSet(order[..i + 1]) == AsSet(order[..i]) + {order[i]};
    forall j | 0 <= j < i ensures order[j] != order[i] {
      BeforeIsTotal(order[j], order[i]);
    }
  }
}
