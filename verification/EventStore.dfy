/** The in-memory event store (src/hashmap_repo/repository.rs): validate every entity of a
    commit against the stored log lengths, and only then append. */
module EventStore {
  import opened Basics
  import opened Events
  import opened Entities

  type Store = map<string, seq<EventRecord>>

  datatype RepositoryError =
    | ConcurrentWrite(id: string, expected: nat, actual: nat)
    | Replay(message: string)

  function Log(store: Store, id: string): seq<EventRecord>
  {
    if id in store then store[id] else []
  }

  predicate UpToDate(store: Store, e: EntityState)
  {
    |Log(store, e.id)| == e.committedVersion
  }

  /** The error reported for the first entity whose committed version is stale. */
  function FirstConflict(store: Store, batch: seq<EntityState>): Option<RepositoryError>
  {
    if batch == [] then None
    else if UpToDate(store, batch[0]) then FirstConflict(store, batch[1..])
    else Some(ConcurrentWrite(batch[0].id, batch[0].committedVersion, |Log(store, batch[0].id)|))
  }

  ghost predicate AllValid(batch: seq<EntityState>)
  {
    forall i :: 0 <= i < |batch| ==> batch[i].Valid()
  }

  ghost predicate DistinctIds(batch: seq<EntityState>)
  {
    forall i, j :: 0 <= i < j < |batch| ==> batch[i].id != batch[j].id
  }

  ghost function AppendAll(store: Store, batch: seq<EntityState>): Store
    requires AllValid(batch)
  {
    if batch == [] then store
    else
      var before := AppendAll(store, batch[..|batch| - 1]);
      var e := batch[|batch| - 1];
      before[e.id := Log(before, e.id) + e.NewEvents()]
  }

  lemma AppendAllSnoc(store: Store, batch: seq<EntityState>, i: nat)
    requires AllValid(batch) && i < |batch|
    ensures var before := AppendAll(store, batch[..i]);
      AppendAll(store, batch[..i + 1]) == before[batch[i].id := Log(before, batch[i].id) + batch[i].NewEvents()]
  {
    assert batch[..i + 1][..i] == batch[..i];
  }

  lemma {:induction false} AppendAllKeys(store: Store, batch: seq<EntityState>, id: string)
    requires AllValid(batch)
    ensures id in AppendAll(store, batch) <==> id in store || exists i :: 0 <= i < |batch| && batch[i].id == id
  {
    if batch != [] {
      AppendAllKeys(store, batch[..|batch| - 1], id);
    }
  }

  function AllMarked(batch: seq<EntityState>): seq<EntityState>
  {
    seq(|batch|, i requires 0 <= i < |batch| => MarkedCommitted(batch[i]))
  }

  /** Everything a commit leaves behind. */
  datatype CommitOutcome = CommitOutcome(
    result: Result<(), RepositoryError>,
    store: Store,
    batch: seq<EntityState>)

  ghost function AfterCommit(store: Store, batch: seq<EntityState>): CommitOutcome
    requires AllValid(batch)
  {
    match FirstConflict(store, batch)
    case Some(error) => CommitOutcome(Err(error), store, batch)
    case None =>
      CommitOutcome(Ok(()), AppendAll(store, batch), AllMarked(batch))
  }

  // ---- When a commit succeeds --------------------------------------------------------

  /** A commit succeeds exactly when no entity of the batch is stale, and otherwise names
      the first stale one. */
  lemma {:induction false} CommitSucceedsIff(store: Store, batch: seq<EntityState>)
    ensures FirstConflict(store, batch) == None <==> forall i :: 0 <= i < |batch| ==> UpToDate(store, batch[i])
    ensures FirstConflict(store, batch).Some? ==>
      exists i :: 0 <= i < |batch| && !UpToDate(store, batch[i])
        && (forall j :: 0 <= j < i ==> UpToDate(store, batch[j]))
        && FirstConflict(store, batch).value == ConcurrentWrite(batch[i].id, batch[i].committedVersion, |Log(store, batch[i].id)|)
  {
    if batch != [] && UpToDate(store, batch[0]) {
      var rest := batch[1..];
      CommitSucceedsIff(store, rest);
      if FirstConflict(store, rest).Some? {
        var i :| 0 <= i < |rest| && !UpToDate(store, rest[i])
          && (forall j :: 0 <= j < i ==> UpToDate(store, rest[j]))
          && FirstConflict(store, rest).value == ConcurrentWrite(rest[i].id, rest[i].committedVersion, |Log(store, rest[i].id)|);
        assert batch[i + 1] == rest[i];
        forall j | 0 <= j < i + 1 ensures UpToDate(store, batch[j]) {
          if j > 0 { assert batch[j] == rest[j - 1]; }
        }
      } else {
        forall i | 0 <= i < |batch| ensures UpToDate(store, batch[i]) {
          if i > 0 { assert batch[i] == rest[i - 1]; }
        }
      }
    }
  }

  lemma UpToDateCommits(store: Store, batch: seq<EntityState>)
    requires AllValid(batch) && forall i :: 0 <= i < |batch| ==> UpToDate(store, batch[i])
    ensures AfterCommit(store, batch) == CommitOutcome(Ok(()), AppendAll(store, batch), AllMarked(batch))
  {
    CommitSucceedsIff(store, batch);
  }

  // ---- What a commit appends ---------------------------------------------------------

  /** The new events of all entities of the batch that carry `id`, in batch order. */
  ghost function NewEventsFor(batch: seq<EntityState>, id: string): seq<EventRecord>
    requires AllValid(batch)
  {
    if batch == [] then []
    else
      var e := batch[|batch| - 1];
      NewEventsFor(batch[..|batch| - 1], id) + if e.id == id then e.NewEvents() else []
  }

  lemma {:induction false} AppendAllLog(store: Store, batch: seq<EntityState>, id: string)
    requires AllValid(batch)
    ensures Log(AppendAll(store, batch), id) == Log(store, id) + NewEventsFor(batch, id)
  {
    if batch != [] {
      var front, e := batch[..|batch| - 1], batch[|batch| - 1];
      AppendAllLog(store, front, id);
      var before, added := AppendAll(store, front), NewEventsFor(front, id);
      if e.id == id {
        assert Log(AppendAll(store, batch), id) == Log(before, id) + e.NewEvents();
        ConcatAssociates(Log(store, id), added, e.NewEvents());
      } else {
        assert Log(AppendAll(store, batch), id) == Log(before, id);
        assert added + [] == added;
      }
    }
  }

  lemma {:induction false} NewEventsForAbsent(batch: seq<EntityState>, id: string)
    requires AllValid(batch) && forall i :: 0 <= i < |batch| ==> batch[i].id != id
    ensures NewEventsFor(batch, id) == []
  {
    if batch != [] {
      NewEventsForAbsent(batch[..|batch| - 1], id);
      assert batch[|batch| - 1].id != id;
    }
  }

  lemma {:induction false} NewEventsForMember(batch: seq<EntityState>, i: nat)
    requires AllValid(batch) && DistinctIds(batch) && i < |batch|
    ensures NewEventsFor(batch, batch[i].id) == batch[i].NewEvents()
  {
    var front, id := batch[..|batch| - 1], batch[i].id;
    if i < |front| {
      assert front[i] == batch[i] && batch[|batch| - 1].id != id;
      NewEventsForMember(front, i);
    } else {
      NewEventsForAbsent(front, id);
    }
  }

  lemma NewEventsForDistinct(batch: seq<EntityState>, id: string)
    requires AllValid(batch) && DistinctIds(batch)
    ensures forall i :: 0 <= i < |batch| && batch[i].id == id ==> NewEventsFor(batch, id) == batch[i].NewEvents()
    ensures (forall i :: 0 <= i < |batch| ==> batch[i].id != id) ==> NewEventsFor(batch, id) == []
  {
    if i :| 0 <= i < |batch| && batch[i].id == id {
      NewEventsForMember(batch, i);
    } else {
      NewEventsForAbsent(batch, id);
    }
  }

  /** A successful commit of entities with distinct ids whose committed events are a prefix
      of the stored log leaves, for each of them, a log equal to its whole event list. */
  lemma CommitStoresWholeHistory(store: Store, batch: seq<EntityState>, i: nat)
    requires AllValid(batch) && DistinctIds(batch) && i < |batch|
    requires AfterCommit(store, batch).result.Ok?
    requires batch[i].events[..batch[i].committedVersion] <= Log(store, batch[i].id)
    ensures Log(AfterCommit(store, batch).store, batch[i].id) == batch[i].events
    ensures AfterCommit(store, batch).batch[i].NewEvents() == []
  {
    CommitSucceedsIff(store, batch);
    CommittedLog(store, batch, i);
    assert UpToDate(store, batch[i]);
    PrefixAndNewEvents(batch[i], Log(store, batch[i].id));
  }

  lemma CommittedLog(store: Store, batch: seq<EntityState>, i: nat)
    requires AllValid(batch) && DistinctIds(batch) && i < |batch|
    ensures Log(AppendAll(store, batch), batch[i].id) == Log(store, batch[i].id) + batch[i].NewEvents()
  {
    AppendAllLog(store, batch, batch[i].id);
    NewEventsForDistinct(batch, batch[i].id);
  }

  lemma PrefixAndNewEvents(e: EntityState, log: seq<EventRecord>)
    requires e.Valid() && |log| == e.committedVersion && e.events[..e.committedVersion] <= log
    ensures log + e.NewEvents() == e.events
    ensures MarkedCommitted(e).NewEvents() == []
  {
    assert e.events == e.events[..e.committedVersion] + e.NewEvents();
  }

  // ---- The condition distinct ids stand for ------------------------------------------

  /** How many entities of the batch would write to `id`. */
  ghost function Writers(batch: seq<EntityState>, id: string): nat
    requires AllValid(batch)
  {
    if batch == [] then 0
    else
      var e := batch[|batch| - 1];
      Writers(batch[..|batch| - 1], id) + if e.id == id && e.NewEvents() != [] then 1 else 0
  }

  lemma {:induction false} WritersNumbering(batch: seq<EntityState>, id: string, base: nat)
    requires AllValid(batch)
    requires forall i :: 0 <= i < |batch| && batch[i].id == id ==>
      batch[i].committedVersion == base && Numbered(batch[i].events)
    ensures NewEventsFor(batch, id) == [] <==> Writers(batch, id) == 0
    ensures NumberedFrom(base, NewEventsFor(batch, id)) <==> Writers(batch, id) <= 1
  {
    if batch != [] {
      var e := batch[|batch| - 1];
      var front := batch[..|batch| - 1];
      WritersNumbering(front, id, base);
      var older := NewEventsFor(front, id);
      var whole := NewEventsFor(batch, id);
      if e.id == id && e.NewEvents() != [] {
        assert NumberedFrom(base, e.NewEvents());
        assert whole == older + e.NewEvents();
        assert whole[|older|] == e.NewEvents()[0];
        assert NumberedFrom(base, whole) ==> NumberedFrom(base, older) by {
          forall k | 0 <= k < |older| ensures older[k] == whole[k] {}
        }
      } else {
        assert whole == older;
      }
    }
  }

  /** Validation does not see appends of the same batch. A successful commit of up-to-date
      entities keeps a stored log numbered 1..n exactly when at most one entity of the
      batch brings new events for it. */
  lemma CommitKeepsNumberingIff(store: Store, batch: seq<EntityState>, id: string)
    requires AllValid(batch) && AfterCommit(store, batch).result.Ok?
    requires Numbered(Log(store, id))
    requires forall i :: 0 <= i < |batch| && batch[i].id == id ==> Numbered(batch[i].events)
    ensures Numbered(Log(AfterCommit(store, batch).store, id)) <==> Writers(batch, id) <= 1
  {
    var log, added := Log(store, id), NewEventsFor(batch, id);
    CommitSucceedsIff(store, batch);
    forall i | 0 <= i < |batch| && batch[i].id == id
      ensures batch[i].committedVersion == |log|
    {
      assert UpToDate(store, batch[i]);
    }
    WritersNumbering(batch, id, |log|);
    AppendAllLog(store, batch, id);
    NumberedConcat(log, added);
  }

  lemma NumberedConcat(log: seq<EventRecord>, added: seq<EventRecord>)
    requires Numbered(log)
    ensures Numbered(log + added) <==> NumberedFrom(|log|, added)
  {
    if Numbered(log + added) {
      forall k | 0 <= k < |added| ensures added[k] == (log + added)[|log| + k] {}
    }
  }

  lemma TwiceTheSameEntity(store: Store, e: EntityState)
    requires e.Valid()
    ensures NewEventsFor([e, e], e.id) == e.NewEvents() + e.NewEvents()
    ensures FirstConflict(store, [e, e]) == FirstConflict(store, [e])
  {
    assert [e, e][..1] == [e] && [e][..0] == [];
    assert NewEventsFor([e], e.id) == [] + e.NewEvents() == e.NewEvents();
    assert [e, e][1..] == [e];
  }

  /** Two fresh entities with the same id, one event each: the commit succeeds and stores
      two events numbered 1. */
  lemma DuplicateIdsBreakNumbering(id: string, name: string)
    ensures var e := Digested(Blank(id), name, 1, []);
      var outcome := AfterCommit(map[], [e, e]);
      && outcome.result.Ok?
      && Log(outcome.store, id) == e.events + e.events
      && !Numbered(Log(outcome.store, id))
  {
    var e := Digested(Blank(id), name, 1, []);
    TwiceTheSameEntity(map[], e);
    AppendAllLog(map[], [e, e], id);
    assert UpToDate(map[], e) && FirstConflict(map[], [e]) == FirstConflict(map[], []);
    assert e.NewEvents() == e.events && [] + (e.events + e.events) == e.events + e.events;
    assert (e.events + e.events)[1].sequence == 1;
  }

  // ---- The repository ----------------------------------------------------------------

  ghost function Values(entities: seq<Entity>): (values: seq<EntityState>)
    reads entities
    ensures |values| == |entities|
    ensures forall i :: 0 <= i < |entities| ==> values[i] == entities[i].Value()
  {
    if entities == [] then [] else Values(entities[..|entities| - 1]) + [entities[|entities| - 1].Value()]
  }

  /** The entities stored under `ids`, in request order, missing ids skipped. */
  function AllLoaded(store: Store, ids: seq<string>): seq<EntityState>
  {
    if ids == [] then []
    else
      var last := ids[|ids| - 1];
      AllLoaded(store, ids[..|ids| - 1]) + if last in store then [Loaded(last, store[last])] else []
  }

  /** The entities come in request order, one for each id that is stored. */
  lemma {:induction false} LoadedInRequestOrder(store: Store, ids: seq<string>)
    ensures var kept := Filter((id: string) => id in store, ids);
      && |AllLoaded(store, ids)| == |kept|
      && forall i :: 0 <= i < |kept| ==> kept[i] in store && AllLoaded(store, ids)[i] == Loaded(kept[i], store[kept[i]])
  {
    if ids != [] {
      LoadedInRequestOrder(store, ids[..|ids| - 1]);
    }
  }

  class HashMapRepository {
    var eventStore: Store

    constructor ()
      ensures eventStore == map[]
    {
      eventStore := map[];
    }

    method GetOne(id: string) returns (found: Option<Entity>)
      ensures id !in eventStore ==> found == None
      ensures id in eventStore ==> found.Some? && fresh(found.value) && found.value.Value() == Loaded(id, eventStore[id])
    {
      if id in eventStore {
        var entity := new Entity();
        entity.SetId(id);
        entity.LoadFromHistory(eventStore[id]);
        found := Some(entity);
      } else {
        found := None;
      }
    }

    method GetMany(ids: seq<string>) returns (found: seq<Entity>)
      ensures fresh(set e | e in found)
      ensures Values(found) == AllLoaded(eventStore, ids)
    {
      found := [];
      for n := 0 to |ids|
        invariant fresh(set e | e in found)
        invariant Values(found) == AllLoaded(eventStore, ids[..n])
      {
        assert ids[..n + 1][..n] == ids[..n];
        var one := GetOne(ids[n]);
        if one.Some? {
          found := found + [one.value];
          assert found[..|found| - 1] + [one.value] == found;
        }
      }
      assert ids[..|ids|] == ids;
    }

    /** Phase 1: compare every committed version with the stored length. */
    method Validate(entities: seq<Entity>) returns (conflict: Option<RepositoryError>)
      ensures conflict == FirstConflict(eventStore, Values(entities))
    {
      ghost var batch := Values(entities);
      for i := 0 to |entities|
        invariant FirstConflict(eventStore, batch) == FirstConflict(eventStore, batch[i..])
      {
        var id := entities[i].id;
        var stored := if id in eventStore then |eventStore[id]| else 0;
        assert batch[i..][0] == entities[i].Value() && batch[i..][1..] == batch[i + 1..];
        if stored != entities[i].committedVersion {
          return Some(ConcurrentWrite(id, entities[i].committedVersion, stored));
        }
      }
      conflict := None;
    }

    /** Phase 2: append one entity's new events and mark them committed. */
    method Append(entity: Entity)
      requires entity.Valid()
      modifies this`eventStore, entity`committedVersion
      ensures eventStore == old(eventStore)[entity.id := Log(old(eventStore), entity.id) + old(entity.Value()).NewEvents()]
      ensures entity.Value() == MarkedCommitted(old(entity.Value()))
    {
      var newEvents := entity.NewEvents();
      if entity.id !in eventStore {
        eventStore := eventStore[entity.id := []];
      }
      eventStore := eventStore[entity.id := eventStore[entity.id] + newEvents];
      entity.MarkCommitted();
    }

    /** All entities are checked under one lock before any log changes, so a conflict
        leaves the store and every entity as they were. */
    method Commit(entities: seq<Entity>) returns (result: Result<(), RepositoryError>)
      requires forall i, j :: 0 <= i < j < |entities| ==> entities[i] != entities[j]
      requires AllValid(Values(entities))
      modifies this`eventStore, entities
      ensures var outcome := AfterCommit(old(eventStore), old(Values(entities)));
        && result == outcome.result
        && eventStore == outcome.store
        && Values(entities) == outcome.batch
    {
      var conflict := Validate(entities);
      if conflict.Some? {
        return Err(conflict.value);
      }
      AppendEach(entities, Values(entities));
      result := Ok(());
    }

    method AppendEach(entities: seq<Entity>, ghost batch: seq<EntityState>)
      requires forall i, j :: 0 <= i < j < |entities| ==> entities[i] != entities[j]
      requires Values(entities) == batch && AllValid(batch)
      modifies this`eventStore, entities
      ensures eventStore == AppendAll(old(eventStore), batch)
      ensures Values(entities) == AllMarked(batch)
    {
      ghost var base := eventStore;
      for i := 0 to |entities|
        invariant eventStore == AppendAll(base, batch[..i])
        invariant Values(entities) == PartlyMarked(batch, i)
      {
        AppendNth(entities, i, batch, base);
      }
      assert batch[..|entities|] == batch;
    }

    /** One round of the loop: only entity `i` changes. */
    method AppendNth(entities: seq<Entity>, i: nat, ghost batch: seq<EntityState>, ghost base: Store)
      requires forall i, j :: 0 <= i < j < |entities| ==> entities[i] != entities[j]
      requires i < |entities| == |batch| && AllValid(batch) && Values(entities) == PartlyMarked(batch, i)
      requires eventStore == AppendAll(base, batch[..i])
      modifies this`eventStore, entities[i]
      ensures eventStore == AppendAll(base, batch[..i + 1])
      ensures Values(entities) == PartlyMarked(batch, i + 1)
    {
      AppendAllSnoc(base, batch, i);
      Append(entities[i]);
    }
  }

  /** The entities of a batch after `n` rounds. */
  function PartlyMarked(batch: seq<EntityState>, n: nat): (marked: seq<EntityState>)
    ensures |marked| == |batch|
    ensures n == 0 ==> marked == batch
    ensures n >= |batch| ==> marked == AllMarked(batch)
  {
    seq(|batch|, i requires 0 <= i < |batch| => if i < n then MarkedCommitted(batch[i]) else batch[i])
  }
}
