/** The locking wrapper of a repository (src/queued_repo/repository.rs) as an object. A call
    that is still waiting for a lock after its last wake-up returns `None`. */
module QueuedRepo {
  import opened Basics
  import opened Entities
  import opened EventStore
  import opened LockOrder
  import opened KeyedLocks

  function IdsOf(batch: seq<EntityState>): set<string>
  {
    set e | e in batch :: e.id
  }

  class QueuedRepository {
    const inner: HashMapRepository
    const locks: LockTable

    constructor (inner: HashMapRepository)
      ensures this.inner == inner && locks.Valid() && fresh(locks) && fresh(locks.manager) && locks.held == {}
    {
      this.inner := inner;
      locks := new LockTable();
    }

    /** The lock is taken even when there is no such entity. */
    method GetOne(id: string, wakeUps: seq<bool>) returns (found: Option<Option<Entity>>)
      requires locks.Valid()
      modifies locks, locks.manager, locks.manager.locks.Values
      ensures locks.Valid() && fresh(locks.manager.locks.Values - old(locks.manager.locks.Values))
      ensures locks.held == old(locks.held) + {id}
      ensures found.Some? == GetsThrough(old(locks.held), id, wakeUps)
      ensures found.Some? ==> (found.value.Some? <==> id in inner.eventStore)
      ensures found.Some? && found.value.Some? ==> found.value.value.Value() == Loaded(id, inner.eventStore[id])
    {
      var acquired := locks.Acquire(id, wakeUps);
      if !acquired {
        return None;
      }
      var entity := inner.GetOne(id);
      found := Some(entity);
    }

    /** A call that is still waiting holds the locks that come before. */
    method GetMany(ids: seq<string>, wakeUps: string -> seq<bool>) returns (found: Option<seq<Entity>>)
      requires locks.Valid()
      modifies locks, locks.manager, locks.manager.locks.Values
      ensures locks.Valid() && fresh(locks.manager.locks.Values - old(locks.manager.locks.Values))
      ensures var order := SortDedup(ids);
        var n := Taken(old(locks.held), order, wakeUps);
        && found.Some? == (n == |order|)
        && locks.held == old(locks.held) + AsSet(order[..n])
      ensures found.Some? ==> locks.held == old(locks.held) + AsSet(ids) && Values(found.value) == AllLoaded(inner.eventStore, ids)
    {
      var acquired := locks.LockIdsInOrder(ids, wakeUps);
      if !acquired {
        return None;
      }
      var entities := inner.GetMany(ids);
      var order := SortDedup(ids);
      assert order[..|order|] == order && AsSet(order) == AsSet(ids);
      found := Some(entities);
    }

    /** The wrapped commit of entities that are now `batch`; only when it succeeds are the
        locks of its entities given back. */
    method Commit(entities: seq<Entity>, ghost batch: seq<EntityState>) returns (result: Result<(), RepositoryError>)
      requires locks.Valid()
      requires forall i, j :: 0 <= i < j < |entities| ==> entities[i] != entities[j]
      requires Values(entities) == batch && AllValid(batch)
      modifies locks, locks.manager, locks.manager.locks.Values, inner, entities
      ensures locks.Valid() && fresh(locks.manager.locks.Values - old(locks.manager.locks.Values))
      ensures result == AfterCommit(old(inner.eventStore), batch).result
      ensures inner.eventStore == AfterCommit(old(inner.eventStore), batch).store
      ensures Values(entities) == AfterCommit(old(inner.eventStore), batch).batch
      ensures locks.held == if result.Ok? then old(locks.held) - IdsOf(batch) else old(locks.held)
    {
      var ids := CollectIds(entities);
      result := CommitInner(entities, batch);
      if result.Ok? {
        GiveBack(ids, entities, AfterCommit(old(inner.eventStore), batch).batch);
      }
    }

    /** The wrapped repository knows nothing of the locks. */
    method CommitInner(entities: seq<Entity>, ghost batch: seq<EntityState>) returns (result: Result<(), RepositoryError>)
      requires locks.Valid()
      requires forall i, j :: 0 <= i < j < |entities| ==> entities[i] != entities[j]
      requires Values(entities) == batch && AllValid(batch)
      modifies inner, entities
      ensures locks.Valid()
      ensures result == AfterCommit(old(inner.eventStore), batch).result
      ensures inner.eventStore == AfterCommit(old(inner.eventStore), batch).store
      ensures Values(entities) == AfterCommit(old(inner.eventStore), batch).batch
    {
      result := inner.Commit(entities);
    }

    /** Giving back locks does not touch the entities. */
    method GiveBack(ids: seq<string>, ghost entities: seq<Entity>, ghost batch: seq<EntityState>)
      requires locks.Valid() && Values(entities) == batch
      modifies locks, locks.manager, locks.manager.locks.Values
      ensures locks.Valid() && fresh(locks.manager.locks.Values - old(locks.manager.locks.Values))
      ensures locks.held == old(locks.held) - AsSet(ids)
      ensures Values(entities) == batch
    {
      locks.UnlockAll(ids);
    }

    static method CollectIds(entities: seq<Entity>) returns (ids: seq<string>)
      ensures AsSet(ids) == IdsOf(Values(entities))
    {
      ghost var batch := Values(entities);
      ids := [];
      for i := 0 to |entities|
        invariant AsSet(ids) == IdsOf(batch[..i])
      {
        assert batch[..i + 1] == batch[..i] + [batch[i]];
        assert AsSet(ids + [entities[i].id]) == AsSet(ids) + {entities[i].id};
        ids := ids + [entities[i].id];
      }
      assert batch[..|entities|] == batch;
    }
  }
}
