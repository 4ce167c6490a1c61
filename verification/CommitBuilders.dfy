/** Committing aggregates, outbox messages and read models in one call
    (src/commit_builder/mod.rs, src/outbox/commit.rs). */
module CommitBuilders {
  import opened Basics
  import opened Entities
  import opened EventStore
  import opened OutboxMessages
  import opened OutboxEnqueue
  import opened ReadModels

  datatype QueuedModel = QueuedModel(key: string, bytes: Bytes)

  function SavedAll(models: Models, queue: seq<QueuedModel>): Models
  {
    if queue == [] then models
    else
      var last := queue[|queue| - 1];
      Written(SavedAll(models, queue[..|queue| - 1]), last.key, Upsert(last.bytes))
  }

  /** Everything such a commit leaves behind. */
  datatype BuiltOutcome = BuiltOutcome(
    result: Result<(), RepositoryError>,
    store: Store,
    batch: seq<EntityState>,
    models: Models)

  /** The entities are committed first, and the read models only if that succeeds. */
  ghost function Built(store: Store, models: Models, batch: seq<EntityState>, queue: seq<QueuedModel>): BuiltOutcome
    requires AllValid(batch)
  {
    var outcome := AfterCommit(store, batch);
    BuiltOutcome(outcome.result, outcome.store, outcome.batch, if outcome.result.Ok? then SavedAll(models, queue) else models)
  }

  // ---- All or nothing ----------------------------------------------------------------

  /** A commit whose entities bring events under distinct ids changes the log of every one
      of them or of none, and which it is shows in the result: an aggregate's events and its
      outbox messages appear together. On an error nothing at all has changed. */
  lemma AllOrNothing(store: Store, models: Models, batch: seq<EntityState>, queue: seq<QueuedModel>)
    requires AllValid(batch) && DistinctIds(batch)
    requires forall i :: 0 <= i < |batch| ==> batch[i].NewEvents() != []
    ensures var built := Built(store, models, batch, queue);
      && (built.result.Ok? <==> forall i :: 0 <= i < |batch| ==> UpToDate(store, batch[i]))
      && (forall i :: 0 <= i < |batch| ==>
           (built.result.Ok? <==> Log(built.store, batch[i].id) == Log(store, batch[i].id) + batch[i].NewEvents()))
      && (built.result.Err? ==> built == BuiltOutcome(built.result, store, batch, models))
      && (built.result.Ok? ==> forall key :: VersionOf(built.models, key) == VersionOf(models, key) + CountOf(queue, key))
  {
    var built := Built(store, models, batch, queue);
    CommitSucceedsIff(store, batch);
    forall i | 0 <= i < |batch|
      ensures built.result.Ok? <==> Log(built.store, batch[i].id) == Log(store, batch[i].id) + batch[i].NewEvents()
    {
      AppendAllLog(store, batch, batch[i].id);
      NewEventsForDistinct(batch, batch[i].id);
      assert |Log(store, batch[i].id) + batch[i].NewEvents()| > |Log(store, batch[i].id)|;
    }
    forall key ensures VersionOf(SavedAll(models, queue), key) == VersionOf(models, key) + CountOf(queue, key) {
      SavedInOrder(models, queue, key);
    }
  }

  /** An id is enqueued only once: a commit with a newly created message whose id, with or
      without the prefix, is in the store already commits nothing, neither the aggregate
      nor any read model. */
  lemma EnqueuedOnlyOnce(store: Store, models: Models, batch: seq<EntityState>, queue: seq<QueuedModel>, i: nat, create: Command)
    requires AllValid(batch) && i < |batch| && create.Initialize? && batch[i] == Created(create)
    requires Log(store, NormalizeId(create.id)) != []
    ensures var built := Built(store, models, batch, queue);
      && built.result.Err?
      && built.store == store && built.batch == batch && built.models == models
  {
    CommitSucceedsIff(store, batch);
    assert !UpToDate(store, batch[i]);
  }

  /** And one that is new and commits puts exactly its creation event in the store. */
  lemma EnqueuedOnce(store: Store, models: Models, batch: seq<EntityState>, queue: seq<QueuedModel>, i: nat, create: Command)
    requires AllValid(batch) && DistinctIds(batch) && i < |batch| && create.Initialize? && batch[i] == Created(create)
    requires Built(store, models, batch, queue).result.Ok?
    ensures var log := Log(Built(store, models, batch, queue).store, NormalizeId(create.id));
      |log| == 1 && Decode(log[0].name, log[0].payload) == Some(create) && log[0].sequence == 1
  {
    CommitStoresWholeHistory(store, batch, i);
    DecodeEncode(create);
  }

  // ---- The read models ---------------------------------------------------------------

  function CountOf(queue: seq<QueuedModel>, key: string): nat
  {
    if queue == [] then 0 else CountOf(queue[..|queue| - 1], key) + if queue[|queue| - 1].key == key then 1 else 0
  }

  function Find(models: Models, key: string): Option<Stored>
  {
    if key in models then Some(models[key]) else None
  }

  function VersionOf(models: Models, key: string): nat
  {
    if key in models then models[key].version else 0
  }

  /** Each save of a key adds one to its version; the last queued bytes stay; the other
      keys are not touched. */
  lemma {:induction false} SavedInOrder(models: Models, queue: seq<QueuedModel>, key: string)
    ensures VersionOf(SavedAll(models, queue), key) == VersionOf(models, key) + CountOf(queue, key)
    ensures CountOf(queue, key) == 0 ==> Find(SavedAll(models, queue), key) == Find(models, key)
    ensures forall i :: 0 <= i < |queue| && queue[i].key == key && CountOf(queue[i + 1..], key) == 0 ==>
      key in SavedAll(models, queue) && SavedAll(models, queue)[key].bytes == queue[i].bytes
  {
    if queue != [] {
      var front, last := queue[..|queue| - 1], queue[|queue| - 1];
      SavedInOrder(models, front, key);
      forall i | 0 <= i < |queue| && queue[i].key == key && CountOf(queue[i + 1..], key) == 0
        ensures key in SavedAll(models, queue) && SavedAll(models, queue)[key].bytes == queue[i].bytes
      {
        if i < |front| {
          assert queue[i + 1..][..|queue[i + 1..]| - 1] == front[i + 1..];
          assert queue[i + 1..][|queue[i + 1..]| - 1] == last;
        }
      }
    }
  }

  // ---- What a reader can see meanwhile -----------------------------------------------

  datatype Stage = Stage(store: Store, models: Models)

  /** The states of store and read models during a commit, in order: the entities change
      under one lock, then each read model under its own. */
  ghost function Stages(store: Store, models: Models, batch: seq<EntityState>, queue: seq<QueuedModel>): (stages: seq<Stage>)
    requires AllValid(batch)
    ensures |stages| >= 1
  {
    var outcome := AfterCommit(store, batch);
    [Stage(store, models)] +
    if outcome.result.Err? then []
    else seq(|queue| + 1, i requires 0 <= i <= |queue| => Stage(outcome.store, SavedAll(models, queue[..i])))
  }

  /** The first stage is the state before and the last one what the commit leaves behind. */
  lemma StagesEndInBuilt(store: Store, models: Models, batch: seq<EntityState>, queue: seq<QueuedModel>)
    requires AllValid(batch)
    ensures var stages, built := Stages(store, models, batch, queue), Built(store, models, batch, queue);
      stages[0] == Stage(store, models) && stages[|stages| - 1] == Stage(built.store, built.models)
  {
    assert queue[..|queue|] == queue;
  }

  /** The commit is visible in part: not as before, and not as afterwards. */
  ghost predicate Torn(stages: seq<Stage>, stage: Stage)
    requires stages != []
  {
    stage in stages && stage != stages[0] && stage != stages[|stages| - 1]
  }

  /** The batch leaves a mark on the store. */
  ghost predicate Brings(store: Store, batch: seq<EntityState>)
    requires AllValid(batch)
  {
    exists i :: 0 <= i < |batch| && (batch[i].id !in store || batch[i].NewEvents() != [])
  }

  lemma {:induction false} MemberEventsAppear(batch: seq<EntityState>, i: nat)
    requires AllValid(batch) && i < |batch| && batch[i].NewEvents() != []
    ensures NewEventsFor(batch, batch[i].id) != []
  {
    if i < |batch| - 1 {
      MemberEventsAppear(batch[..|batch| - 1], i);
    }
  }

  lemma {:induction false} NothingBrought(store: Store, batch: seq<EntityState>)
    requires AllValid(batch) && !Brings(store, batch)
    ensures AppendAll(store, batch) == store
  {
    if batch != [] {
      var front := batch[..|batch| - 1];
      forall i | 0 <= i < |front| ensures front[i].id in store && front[i].NewEvents() == [] {
        assert front[i] == batch[i];
      }
      NothingBrought(store, front);
      var e := batch[|batch| - 1];
      assert e.id in store && e.NewEvents() == [];
      assert Log(store, e.id) + [] == store[e.id];
    }
  }

  lemma StoreChangesIff(store: Store, batch: seq<EntityState>)
    requires AllValid(batch)
    ensures AppendAll(store, batch) != store <==> Brings(store, batch)
  {
    if i :| 0 <= i < |batch| && (batch[i].id !in store || batch[i].NewEvents() != []) {
      AppendAllKeys(store, batch, batch[i].id);
      AppendAllLog(store, batch, batch[i].id);
      if batch[i].NewEvents() != [] {
        MemberEventsAppear(batch, i);
        assert |Log(AppendAll(store, batch), batch[i].id)| > |Log(store, batch[i].id)|;
      }
    } else {
      NothingBrought(store, batch);
    }
  }

  lemma {:induction false} CountOfPrefix(queue: seq<QueuedModel>, n: nat, key: string)
    requires n <= |queue|
    ensures CountOf(queue[..n], key) <= CountOf(queue, key)
    decreases |queue|
  {
    if n < |queue| {
      assert queue[..|queue| - 1][..n] == queue[..n];
      CountOfPrefix(queue[..|queue| - 1], n, key);
    } else {
      assert queue[..n] == queue;
    }
  }

  /** After each save the read models are different from all times before. */
  lemma SavesDiffer(models: Models, queue: seq<QueuedModel>, m: nat, n: nat)
    requires m < n <= |queue|
    ensures SavedAll(models, queue[..m]) != SavedAll(models, queue[..n])
  {
    var key := queue[m].key;
    assert queue[..m + 1][..m] == queue[..m];
    assert queue[..n][..m + 1] == queue[..m + 1];
    CountOfPrefix(queue[..n], m + 1, key);
    SavedInOrder(models, queue[..m], key);
    SavedInOrder(models, queue[..n], key);
  }

  lemma StageAt(store: Store, models: Models, batch: seq<EntityState>, queue: seq<QueuedModel>, i: nat)
    requires AllValid(batch) && AfterCommit(store, batch).result.Ok? && i <= |queue|
    ensures var stages, stage := Stages(store, models, batch, queue), Stage(AfterCommit(store, batch).store, SavedAll(models, queue[..i]));
      && |stages| == |queue| + 2 && stages[i + 1] == stage && stage in stages
      && stages[0] == Stage(store, models)
  {
  }

  /** A reader can see a commit in part if and only if it succeeds, has read models to write,
      and either has something for the store or more than one read model. */
  lemma TornCommitIff(store: Store, models: Models, batch: seq<EntityState>, queue: seq<QueuedModel>)
    requires AllValid(batch)
    ensures var stages := Stages(store, models, batch, queue);
      (exists stage :: Torn(stages, stage)) <==>
        AfterCommit(store, batch).result.Ok? && queue != [] && (Brings(store, batch) || |queue| > 1)
  {
    var stages := Stages(store, models, batch, queue);
    if AfterCommit(store, batch).result.Ok? {
      var after, n := AfterCommit(store, batch).store, |queue|;
      StoreChangesIff(store, batch);
      StageAt(store, models, batch, queue, n);
      StageAt(store, models, batch, queue, 0);
      assert queue[..0] == [] && queue[..n] == queue;
      if n > 0 {
        SavesDiffer(models, queue, 0, n);
        if Brings(store, batch) {
          assert Torn(stages, Stage(after, models));
        } else if n > 1 {
          StageAt(store, models, batch, queue, 1);
          SavesDiffer(models, queue, 0, 1);
          SavesDiffer(models, queue, 1, n);
          assert Torn(stages, Stage(after, SavedAll(models, queue[..1])));
        }
      }
      if n == 0 || (n == 1 && !Brings(store, batch)) {
        forall stage | stage in stages ensures !Torn(stages, stage) {
          var i :| 0 <= i < |stages| && stages[i] == stage;
          if 0 < i < |stages| - 1 { StageAt(store, models, batch, queue, i - 1); }
        }
      }
    }
  }

  /** For instance the aggregate's events are visible before any read model shows them. */
  lemma EventsShowBeforeReadModels(store: Store, models: Models, batch: seq<EntityState>, queue: seq<QueuedModel>, i: nat)
    requires AllValid(batch) && AfterCommit(store, batch).result.Ok? && queue != []
    requires i < |batch| && batch[i].NewEvents() != []
    ensures Torn(Stages(store, models, batch, queue), Stage(AfterCommit(store, batch).store, models))
  {
    StoreChangesIff(store, batch);
    StageAt(store, models, batch, queue, 0);
    StageAt(store, models, batch, queue, |queue|);
    assert queue[..0] == [] && queue[..|queue|] == queue;
    SavesDiffer(models, queue, 0, |queue|);
  }

  // ---- The builder -------------------------------------------------------------------

  class CommitBuilder {
    const repo: HashMapRepository
    const modelStore: InMemoryReadModelStore
    var entities: seq<Entity>
    var models: seq<QueuedModel>

    constructor (repo: HashMapRepository, modelStore: InMemoryReadModelStore)
      ensures this.repo == repo && this.modelStore == modelStore && entities == [] && models == []
    {
      this.repo, this.modelStore := repo, modelStore;
      entities, models := [], [];
    }

    method Readmodel(collection: string, id: string, bytes: Bytes)
      modifies this`models
      ensures models == old(models) + [QueuedModel(MakeKey(collection, id), bytes)]
    {
      models := models + [QueuedModel(MakeKey(collection, id), bytes)];
    }

    method Outbox(message: OutboxMessage)
      modifies this`entities
      ensures entities == old(entities) + [message.entity]
    {
      entities := entities + [message.entity];
    }

    /** The queued entities come first, then the given ones; `batch` is all of them before. */
    method CommitMany(more: seq<Entity>, ghost batch: seq<EntityState>) returns (result: Result<(), RepositoryError>)
      requires var all := entities + more;
        && Values(all) == batch && AllValid(batch)
        && forall i, j :: 0 <= i < j < |all| ==> all[i] != all[j]
      modifies repo, modelStore, entities, more
      ensures BuiltOutcome(result, repo.eventStore, Values(entities + more), modelStore.storage)
        == Built(old(repo.eventStore), old(modelStore.storage), batch, models)
    {
      var all := entities + more;
      result := CommitEntities(all, batch);
    }

    method CommitEntities(all: seq<Entity>, ghost batch: seq<EntityState>) returns (result: Result<(), RepositoryError>)
      requires Values(all) == batch && AllValid(batch)
      requires forall i, j :: 0 <= i < j < |all| ==> all[i] != all[j]
      modifies repo, modelStore, all
      ensures BuiltOutcome(result, repo.eventStore, Values(all), modelStore.storage)
        == Built(old(repo.eventStore), old(modelStore.storage), batch, models)
    {
      result := repo.Commit(all);
      if result.Ok? {
        SaveBeside(all, AfterCommit(old(repo.eventStore), batch).batch);
      }
    }

    /** Saving read models does not touch the entities. */
    method SaveBeside(ghost all: seq<Entity>, ghost marked: seq<EntityState>)
      requires Values(all) == marked
      modifies modelStore
      ensures Values(all) == marked
      ensures modelStore.storage == SavedAll(old(modelStore.storage), models)
    {
      SaveModels();
    }

    method Commit(aggregate: Entity, ghost batch: seq<EntityState>) returns (result: Result<(), RepositoryError>)
      requires var all := entities + [aggregate];
        && Values(all) == batch && AllValid(batch)
        && forall i, j :: 0 <= i < j < |all| ==> all[i] != all[j]
      modifies repo, modelStore, entities, aggregate
      ensures BuiltOutcome(result, repo.eventStore, Values(entities + [aggregate]), modelStore.storage)
        == Built(old(repo.eventStore), old(modelStore.storage), batch, models)
    {
      result := CommitMany([aggregate], batch);
    }

    /** Without entities the repository is not called. */
    method CommitAll(ghost batch: seq<EntityState>) returns (result: Result<(), RepositoryError>)
      requires Values(entities) == batch && AllValid(batch)
      requires forall i, j :: 0 <= i < j < |entities| ==> entities[i] != entities[j]
      modifies repo, modelStore, entities
      ensures BuiltOutcome(result, repo.eventStore, Values(entities), modelStore.storage)
        == Built(old(repo.eventStore), old(modelStore.storage), batch, models)
    {
      if entities != [] {
        result := CommitMany([], batch);
      } else {
        SaveModels();
        result := Ok(());
      }
    }

    method SaveModels()
      modifies modelStore
      ensures modelStore.storage == SavedAll(old(modelStore.storage), models)
    {
      for i := 0 to |models|
        invariant modelStore.storage == SavedAll(old(modelStore.storage), models[..i])
      {
        assert models[..i + 1][..i] == models[..i];
        var _ := modelStore.SaveRaw(models[i].key, models[i].bytes);
      }
      assert models[..|models|] == models;
    }
  }
}
