/** Outbox messages that are created and stored by a commit, alone or together with other
    entities (src/outbox/commit.rs, src/commit_builder/mod.rs): on messages instead of logs, such
    a commit is a series of enqueue steps of `OutboxWorkers`. */
module OutboxEnqueue {
  import opened Basics
  import opened Events
  import opened Entities
  import opened EventStore
  import opened Aggregates
  import opened OutboxMessages
  import opened OutboxStore
  import Workers = OutboxWorkers

  /** A message as `OutboxMessage::create` makes it. */
  function Created(create: Command): EntityState
    requires create.Initialize?
  {
    Commanded(New(OUTBOX), create).entity
  }

  lemma CreatedHydrates(create: Command)
    requires create.Initialize?
    ensures var e := Created(create);
      && e.id == NormalizeId(create.id) && e.Valid() && e.committedVersion == 0 && e.NewEvents() == e.events
      && e == Performed([create]).entity && Body(DEFAULT, create).status == Pending
      && Hydrated(OUTBOX, Loaded(e.id, e.events)) == Ok(Aggregate(Loaded(e.id, e.events), Body(DEFAULT, create), []))
  {
    MessageHydratesBack([create]);
    PerformedSnoc(OUTBOX, Encode, [], create);
    assert [] + [create] == [create];
    assert Performed([]) == New(OUTBOX);
    CommandedIsInvoked(New(OUTBOX), create);
  }

  /** Which entities of a batch are newly created messages, and of which command; the others
      are not outbox messages. */
  ghost predicate Enqueues(batch: seq<EntityState>, creates: seq<Option<Command>>)
  {
    && AllValid(batch) && DistinctIds(batch) && |creates| == |batch|
    && forall i :: 0 <= i < |batch| ==>
         if creates[i].Some? then creates[i].value.Initialize? && batch[i] == Created(creates[i].value)
         else !IsOutboxId(batch[i].id)
  }

  ghost predicate AllCreate(creates: seq<Option<Command>>)
  {
    forall i :: 0 <= i < |creates| && creates[i].Some? ==> creates[i].value.Initialize?
  }

  function EnqueuedOne(messages: Messages, create: Option<Command>): Messages
    requires create.Some? ==> create.value.Initialize?
  {
    if create.Some? then messages[NormalizeId(create.value.id) := Body(DEFAULT, create.value)] else messages
  }

  /** The messages with the created ones added as pending. */
  ghost function Enqueued(messages: Messages, creates: seq<Option<Command>>): Messages
    requires AllCreate(creates)
  {
    if creates == [] then messages
    else EnqueuedOne(Enqueued(messages, creates[..|creates| - 1]), creates[|creates| - 1])
  }

  lemma EnqueuedSnoc(messages: Messages, creates: seq<Option<Command>>, n: nat)
    requires AllCreate(creates) && n < |creates|
    ensures Enqueued(messages, creates[..n + 1]) == EnqueuedOne(Enqueued(messages, creates[..n]), creates[n])
  {
    assert creates[..n + 1][..n] == creates[..n];
  }

  lemma AppendElsewhere(store: Store, id: string, log: seq<EventRecord>)
    requires !IsOutboxId(id)
    ensures View(store[id := log]) == View(store)
    ensures WellNamed(store) ==> WellNamed(store[id := log])
  {
    var store' := store[id := log];
    forall other | IsOutboxId(other) ensures Readable(store', other) <==> Readable(store, other) {
      if other in store { assert MessageAt(store', other) == MessageAt(store, other); }
    }
    forall other | Readable(store, other) ensures MessageAt(store', other) == MessageAt(store, other) {}
  }

  /** The log an entity of a batch finds when its turn comes is the one it found at first. */
  lemma LogWhenItsTurnComes(store: Store, batch: seq<EntityState>, n: nat)
    requires AllValid(batch) && DistinctIds(batch) && n < |batch|
    ensures Log(AppendAll(store, batch[..n]), batch[n].id) == Log(store, batch[n].id)
  {
    AppendAllLog(store, batch[..n], batch[n].id);
    NewEventsForAbsent(batch[..n], batch[n].id);
    assert Log(store, batch[n].id) + [] == Log(store, batch[n].id);
  }

  /** One entity of the batch. */
  lemma AppendOneView(store: Store, e: EntityState, create: Option<Command>)
    requires e.Valid() && (create.Some? ==> create.value.Initialize? && e == Created(create.value) && Log(store, e.id) == [])
    requires create.None? ==> !IsOutboxId(e.id)
    ensures var after := store[e.id := Log(store, e.id) + e.NewEvents()];
      && View(after) == EnqueuedOne(View(store), create)
      && (WellNamed(store) ==> WellNamed(after))
  {
    var log := Log(store, e.id) + e.NewEvents();
    if create.Some? {
      CreatedHydrates(create.value);
      assert log == e.events;
      Overwrite(store, e.id, log);
      if WellNamed(store) { OverwriteKeepsNames(store, e.id, log); }
    } else {
      AppendElsewhere(store, e.id, log);
    }
  }

  lemma TurnEnqueues(store: Store, batch: seq<EntityState>, creates: seq<Option<Command>>, n: nat)
    requires Enqueues(batch, creates) && n < |batch| && UpToDate(store, batch[n])
    ensures var before, after := AppendAll(store, batch[..n]), AppendAll(store, batch[..n + 1]);
      && View(after) == EnqueuedOne(View(before), creates[n])
      && (WellNamed(before) ==> WellNamed(after))
  {
    AppendAllSnoc(store, batch, n);
    LogWhenItsTurnComes(store, batch, n);
    if creates[n].Some? { CreatedHydrates(creates[n].value); }
    AppendOneView(AppendAll(store, batch[..n]), batch[n], creates[n]);
  }

  /** The first `n` entities have been dealt with. */
  ghost predicate EnqueuedSoFar(store: Store, batch: seq<EntityState>, creates: seq<Option<Command>>, n: nat)
    requires Enqueues(batch, creates) && n <= |batch|
  {
    var now := AppendAll(store, batch[..n]);
    View(now) == Enqueued(View(store), creates[..n]) && (WellNamed(store) ==> WellNamed(now))
  }

  lemma EnqueuesNext(store: Store, batch: seq<EntityState>, creates: seq<Option<Command>>, n: nat)
    requires Enqueues(batch, creates) && n < |batch| && UpToDate(store, batch[n]) && EnqueuedSoFar(store, batch, creates, n)
    ensures EnqueuedSoFar(store, batch, creates, n + 1)
  {
    TurnEnqueues(store, batch, creates, n);
    EnqueuedSnoc(View(store), creates, n);
  }

  lemma {:induction false} PrefixEnqueues(store: Store, batch: seq<EntityState>, creates: seq<Option<Command>>, n: nat)
    requires Enqueues(batch, creates) && n <= |batch| && forall i :: 0 <= i < |batch| ==> UpToDate(store, batch[i])
    ensures EnqueuedSoFar(store, batch, creates, n)
  {
    if n > 0 {
      PrefixEnqueues(store, batch, creates, n - 1);
      EnqueuesNext(store, batch, creates, n - 1);
    }
  }

  /** A commit of any number of created messages, among other entities, adds exactly these
      messages as pending and touches no other message. */
  lemma CommitEnqueues(store: Store, batch: seq<EntityState>, creates: seq<Option<Command>>)
    requires Enqueues(batch, creates) && AfterCommit(store, batch).result.Ok?
    ensures var after := AfterCommit(store, batch).store;
      && View(after) == Enqueued(View(store), creates)
      && (WellNamed(store) ==> WellNamed(after))
  {
    CommitSucceedsIff(store, batch);
    PrefixEnqueues(store, batch, creates, |batch|);
    assert batch[..|batch|] == batch && creates[..|creates|] == creates;
  }

  // ---- As steps of the workers -------------------------------------------------------

  ghost function EnqueueSteps(creates: seq<Option<Command>>): seq<Workers.Step>
    requires AllCreate(creates)
  {
    if creates == [] then []
    else
      var before, last := EnqueueSteps(creates[..|creates| - 1]), creates[|creates| - 1];
      if last.Some? then before + [Workers.Enqueue(NormalizeId(last.value.id), Body(DEFAULT, last.value))] else before
  }

  /** The ids that a commit creates are new and all different. */
  ghost predicate NewIds(messages: Messages, creates: seq<Option<Command>>)
    requires AllCreate(creates)
  {
    && (forall i :: 0 <= i < |creates| && creates[i].Some? ==> NormalizeId(creates[i].value.id) !in messages)
    && forall i, j :: 0 <= i < j < |creates| && creates[i].Some? && creates[j].Some? ==>
         NormalizeId(creates[i].value.id) != NormalizeId(creates[j].value.id)
  }

  lemma {:induction false} EnqueuedIds(messages: Messages, creates: seq<Option<Command>>, id: string)
    requires AllCreate(creates) && id !in messages
    requires forall i :: 0 <= i < |creates| && creates[i].Some? ==> NormalizeId(creates[i].value.id) != id
    ensures id !in Enqueued(messages, creates)
  {
    if creates != [] {
      var last := creates[|creates| - 1];
      EnqueuedIds(messages, creates[..|creates| - 1], id);
      assert last.Some? ==> NormalizeId(last.value.id) != id;
    }
  }

  lemma {:induction false} EnqueueRun(s: Workers.State, creates: seq<Option<Command>>)
    requires AllCreate(creates) && NewIds(s.messages, creates)
    ensures Workers.Run(s, EnqueueSteps(creates)) == s.(messages := Enqueued(s.messages, creates))
  {
    if creates != [] {
      var front, last := creates[..|creates| - 1], creates[|creates| - 1];
      EnqueueRun(s, front);
      if last.Some? {
        var id := NormalizeId(last.value.id);
        EnqueuedIds(s.messages, front, id);
        var step := Workers.Enqueue(id, Body(DEFAULT, last.value));
        assert (EnqueueSteps(front) + [step])[..|EnqueueSteps(front)|] == EnqueueSteps(front);
        assert Workers.Enabled(s.(messages := Enqueued(s.messages, front)), step);
      }
    }
  }

  /** Every outbox log has events, as all logs have that come from creations. */
  ghost predicate NoEmptyMessages(store: Store)
  {
    forall id :: id in store && IsOutboxId(id) ==> store[id] != []
  }

  lemma CommittedIdsAreNew(store: Store, batch: seq<EntityState>, creates: seq<Option<Command>>)
    requires Enqueues(batch, creates) && AfterCommit(store, batch).result.Ok? && NoEmptyMessages(store)
    ensures NewIds(View(store), creates)
  {
    CommitSucceedsIff(store, batch);
    forall i | 0 <= i < |creates| && creates[i].Some?
      ensures batch[i].id == NormalizeId(creates[i].value.id) && batch[i].id !in View(store)
    {
      CreatedHydrates(creates[i].value);
      assert UpToDate(store, batch[i]);
    }
  }

  /** So a commit with k created messages is k enqueue steps of the worker runs. */
  lemma CommitIsEnqueueSteps(store: Store, batch: seq<EntityState>, creates: seq<Option<Command>>, s: Workers.State)
    requires Enqueues(batch, creates) && AfterCommit(store, batch).result.Ok?
    requires NoEmptyMessages(store) && s.messages == View(store)
    ensures Workers.Run(s, EnqueueSteps(creates)) == s.(messages := View(AfterCommit(store, batch).store))
  {
    CommitEnqueues(store, batch, creates);
    CommittedIdsAreNew(store, batch, creates);
    EnqueueRun(s, creates);
  }
}
