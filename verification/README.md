# A verified model of the event-sourcing engine

The repository is an event-sourcing library: aggregates record their commands as events in an
append-only store with optimistic concurrency, are rebuilt by replay (with upcasters for old
events and snapshots as a shortcut), enqueue outbox messages in the same commit, and worker
threads move those messages to a bus. Locking wrappers serialize work on one id. This project
models those parts in Dafny and proves what they keep over whole runs of many clients.

## How it is built

Each part has up to three layers.

* Functions on values say what an operation does: `EventStore.AfterCommit`,
  `Aggregates.Hydrated`, `OutboxStore.Scan`, `ReadModels.Written`.
* Classes with the fields of the original (`Entity`, `HashMapRepository`, `AggregateRoot`,
  `SnapshotRepository`, `OutboxMessage`, `WorkerThread`, `OutboxWorker`, `InMemoryQueue`,
  `InMemoryLock`, `QueuedRepository`, `InMemoryReadModelStore`, `QueuedReadModelStore`,
  `CommitBuilder`, `InventoryObject`, `OrderFulfillmentSaga`) change state as the original
  does; their methods are proved to do what the functions say.
* Step systems interleave any number of clients. A run is a list of steps, a step that is not
  enabled does nothing, and the main results are about every run.

| files | part |
|---|---|
| `Entities`, `EventStore`, `StoreRuns` | event buffer, store, runs with stale entities |
| `Upcasting`, `Aggregates`, `SchemaEvolution`, `Todo` | replay, upcasters, evolution of a schema |
| `Snapshots`, `SnapshotRuns`, `SnapshotLag` | snapshots as a shortcut for replay |
| `OutboxMessages`, `OutboxStore`, `OutboxEnqueue`, `OutboxLogs`, `OutboxWorkers`, `OutboxDelivery`, `OutboxByHand`, `OutboxThread`, `OutboxRetry` | the outbox |
| `CommitBuilders` | aggregates, messages and read models in one commit |
| `Queues`, `QueueRuns`, `EndToEnd` | the in-memory bus, and the way of a message from its creation to a listener |
| `Locks`, `LockOrder`, `KeyedLocks`, `QueuedRepo`, `QueuedRuns`, `QueuedLocks` | locks and the locking repository |
| `ReadModels`, `ReadModelRuns`, `UnlockedRuns` | versioned read models, with and without locks |
| `Inventory`, `Saga` | two aggregates with real arithmetic and compensation |
| `Basics` | options, results, filter, sums |

The outbox layers are connected: `OutboxEnqueue.CommitIsEnqueueSteps`, `OutboxStore.ClaimRefines`
and `OutboxStore.SettleRefines` show that the operations on stored logs are the steps of
`OutboxWorkers`, and `OutboxThread.WorkerThread.PollOnce` that a real poll is a run of them.
`EndToEnd` puts the listeners of `QueueRuns` behind the workers, and `QueuedLocks` the clients of
`QueuedRuns` on the condition-variable locks of `Locks`.

## Assumptions

* A payload is the tuple of command arguments; encoding and decoding are inverse. A payload of
  another shape does not decode, which is a replay error.
* An aggregate type is a default state and named commands with guard, body and at most one
  `set_id`; guards and bodies do not read the entity's version or events
  (src/aggregate/aggregate.rs:57-58 installs the full entity before replay).
* `set_id` is not called on an entity with committed events. Entities of one commit have
  distinct ids where a result says so; `EventStore.CommitKeepsNumberingIff` says exactly what
  that is needed for.
* Clients of the locking wrappers follow get, change, commit or abort; `Locks.StepKeepsExclusiveIff`
  says exactly what the locks need of their callers.
* While workers run, messages are failed by hand but not completed or released by hand;
  `OutboxByHand.CompleteByHandIff` and `OutboxByHand.ReleaseByHandIff` say exactly which of these
  calls are harmless. Nobody but the workers puts outbox messages on the bus.
* Clocks, publisher answers, iteration orders, wake-ups and the flag found at a wake-up are
  inputs. A publish that fails has no effect; a stopped worker takes no more steps.

## Where code and documentation differ

* docs/read-models.md:107 promises at-least-once delivery. The workers deliver at most once
  (`OutboxWorkers.DeliveredAtMostOnce`) and leases are never looked at, so a message whose worker
  stops is lost (`OutboxDelivery.ClaimThenStopStrands`). `OutboxDelivery.DeliverableIff` says
  exactly which messages can still be delivered.
* `claim_outbox_messages` tests `max` after the push, so `max = 0` can hand out one message
  (`OutboxStore.ClaimRespectsMaxIff`). If it meets a log that does not hydrate it returns only
  the error, although messages claimed before stay in flight; `OutboxStore.ClaimFailsIff` and
  `OutboxStore.ClaimStrandsIff` say exactly when.
* The commit validates before it appends and does not see the appends of its own batch
  (`EventStore.CommitKeepsNumberingIff`, `EventStore.DuplicateIdsBreakNumbering`).
* The commit builder speaks of a single atomic commit (src/commit_builder/mod.rs:32). All or
  nothing holds for the outcome of a call (`CommitBuilders.AllOrNothing`), not for what another
  reader can see meanwhile (`CommitBuilders.TornCommitIff`).
* A snapshot decision that is not one step with its commit can replace a snapshot by an older one
  (`SnapshotLag.SaveMovesBackIff`) and lose the lag bound (`SnapshotLag.LateSaveLosesBound`).
* Versions of read models restart with a new entry, so without locks an `update` with the version
  read can overwrite another's write after a delete, and only then
  (`UnlockedRuns.StaleUpdatePossibleIff`).
* `initialize` of the inventory and `start` of the saga have no guard
  (`Inventory.SecondInitializeIsSafeIff`, `Saga.PaidAtMostOncePerStart`, `Saga.RestartChargesTwice`).

## Model

| member | source | states |
|---|---|---|
| `Entities.DigestExtendsNewEvents` | src/entity/entity.rs:129-206 | recording keeps the log numbered and the entity valid, leaves what is committed alone, adds exactly one event to what the next commit will append, and nothing while replaying |
| `Entities.Entity.DigestV` | src/entity/entity.rs:191-206 | appends one record with the name, payload and version given, numbered with the next sequence number and stamped with the whole metadata context, unless replaying |
| `Entities.Entity.Digest` | src/entity/entity.rs:174-189 | the same with event version 1 |
| `Entities.Entity.LoadFromHistory` | src/entity/entity.rs:212-216 | takes over a history as fully committed |
| `Entities.Entity.NewEvents` | src/entity/entity.rs:129-131 | the events past the committed version, a suffix of all events |
| `Entities.Entity.MarkCommitted` | src/entity/entity.rs:134-136 | the committed version becomes the version; nothing else changes |
| `EventStore.CommitSucceedsIff` | src/hashmap_repo/repository.rs:184-192 | a commit succeeds if and only if every entity is as far as its stored log, and otherwise reports the first that is not, with both versions |
| `EventStore.AppendAllLog` | src/hashmap_repo/repository.rs:195-203 | a commit adds to each log the new events of the entities with that id, in batch order, and touches no other log |
| `EventStore.CommitStoresWholeHistory` | src/hashmap_repo/repository.rs:184-203 | after a successful commit with distinct ids the stored log of each entity is that entity's whole event list and it has no new events left |
| `EventStore.CommitKeepsNumberingIff` | src/hashmap_repo/repository.rs:184-203 | a successful commit keeps a stored log numbered 1..n if and only if at most one entity of the batch brings events for it |
| `EventStore.DuplicateIdsBreakNumbering` | src/hashmap_repo/repository.rs:184-203 | two fresh entities with one id commit together successfully and leave two events numbered 1 |
| `EventStore.HashMapRepository.Validate` | src/hashmap_repo/repository.rs:184-192 | finds the first conflict of the batch, if any |
| `EventStore.HashMapRepository.AppendEach` | src/hashmap_repo/repository.rs:195-203 | the append loop does what the batch-wide function says, to the store and to every entity |
| `EventStore.HashMapRepository.Commit` | src/hashmap_repo/repository.rs:175-205 | all or nothing: on a conflict store and entities are as before, else every entity is appended and marked |
| `EventStore.HashMapRepository.GetOne` | src/hashmap_repo/repository.rs:55-69 | a stored log comes back as a fully committed entity; nothing for an unknown id |
| `EventStore.HashMapRepository.GetMany` | src/hashmap_repo/repository.rs:73-81 | the stored entities in request order, unknown ids skipped |
| `EventStore.LoadedInRequestOrder` | src/hashmap_repo/repository.rs:73-81 | for any request the entities found are, one by one and in request order, the stored ones of the requested ids that are there |
| `StoreRuns.RunsKeepLogsConsistent` | src/hashmap_repo/repository.rs:174-205 | in every run of clients with possibly stale entities and of in-place outbox writes, all logs are numbered 1..n, have only grown by appending, and every held entity agrees with the store on its committed events |
| `StoreRuns.CommittedLogIsClientHistory` | src/hashmap_repo/repository.rs:174-205 | whenever a commit returns Ok, each stored log is the committing client's whole event list |
| `StoreRuns.StaleForever` | src/hashmap_repo/repository.rs:184-192 | an entity whose log has moved on can never be committed again, however often it is retried |
| `StoreRuns.LogIsAcceptedBatches` | src/hashmap_repo/repository.rs:195-203 | conservation: a log holds exactly the accepted batches, once each, in order of acceptance |
| `StoreRuns.CreatedAtMostOnce` | src/hashmap_repo/repository.rs:183-203 | in any run at most one commit creates an id |
| `Upcasting.TerminatesWithinListLength` | src/entity/upcaster.rs:21-35 | the upcasting loop stops if and only if it stops within as many rounds as there are upcasters, for any list |
| `Upcasting.IncreasingTerminates` | src/entity/upcaster.rs:21-35 | it stops when every upcaster raises the version |
| `Upcasting.SelfUpcasterLoops` | src/entity/upcaster.rs:21-35 | an upcaster to its own version makes it run for ever |
| `Upcasting.UpcastNormalForm` | src/entity/upcaster.rs:21-35 | the result matches no upcaster, keeps all but payload and version, and is a fixed point |
| `Upcasting.UpcastIgnoresOrder` | src/entity/upcaster.rs:21-35 | with distinct (type, version) keys any permutation of the list gives the same result |
| `Upcasting.UpcastEventsConcat` | src/entity/upcaster.rs:15-19 | upcasting distributes over concatenation |
| `Upcasting.UpcastOne` | src/entity/upcaster.rs:21-35 | the loop computes that result whenever it stops |
| `Upcasting.ApplyFirst` | src/entity/upcaster.rs:24-31 | the inner loop applies the first upcaster of the list that handles the event, if any |
| `Upcasting.UpcastAll` | src/entity/upcaster.rs:15-19 | every event is upcast, in order |
| `Aggregates.HydrateIsFold` | src/aggregate/aggregate.rs:56-77 | hydration is the guarded fold of the upcast log, or the error of the first unknown event; it clears the replaying flag, records nothing and enqueues nothing |
| `Aggregates.ReplayIsFold` | sourced_rust_macros/src/lib.rs:952-978 | while the flag is set, replay touches only id and state and stops at the first event without an arm |
| `Aggregates.RecordReplayRoundTrip` | sourced_rust_macros/src/lib.rs:47-122 | for every sequence of guarded commands, hydrating the recorded log gives back id and state; every guard is true again; the queue mirrors the log event by event |
| `Aggregates.RecordedEvent` | src/entity/entity.rs:174-206 | after any calls, a command adds exactly the event with its name, arguments, version, the next sequence number and the metadata set by the calls before, and nothing when its guard refuses it |
| `Aggregates.InvokeKeepsFaithful` | sourced_rust_macros/src/lib.rs:82-122 | a command on an aggregate whose state is the fold of its log leaves such an aggregate, also after a load |
| `Aggregates.HydrateIsFaithful` | src/aggregate/aggregate.rs:56-77 | a loaded aggregate is one whose state is the fold of its log |
| `Aggregates.AggregateRoot.Invoke` | sourced_rust_macros/src/lib.rs:82-122 | guard, enqueue unless replaying, digest, body |
| `Aggregates.AggregateRoot.ReplayInOrder` | src/aggregate/aggregate.rs:67-74 | replays the events in order and clears the flag on success and on error |
| `Aggregates.Hydrate` | src/aggregate/aggregate.rs:56-77 | the method computes the specified hydration |
| `Snapshots.SnapshotEqualsReplay` | src/snapshot/repository.rs:10-51 | restoring a snapshot that fits the log and replaying the rest gives what full hydration gives, up to the snapshot version |
| `Snapshots.OwnSnapshotFits` | src/snapshot/repository.rs:144-162 | a snapshot taken of an aggregate after its commit fits its log |
| `Snapshots.LoadReplays` | src/snapshot/repository.rs:10-51 | every load, with whatever snapshot: it starts from what a usable snapshot restores, replays exactly the events past its version, and remembers that version; a snapshot that does not decode and an unknown event past it are errors |
| `Snapshots.HydrateFromSnapshot` | src/snapshot/repository.rs:10-51 | the method computes the specified restoration, error cases included |
| `Snapshots.SnapshotRepository.Get` | src/snapshot/repository.rs:80-112 | loads through the stored snapshot unless it is missing or newer than the entity; `Snapshots.LoadReplays` says what that load is |
| `Snapshots.SnapshotRepository.MaybeSnapshot` | src/snapshot/repository.rs:144-162 | saves a snapshot exactly when the version has reached the threshold |
| `Snapshots.SnapshotRepository.Commit` | src/snapshot/repository.rs:124-128 | commits, and looks at the threshold only if that succeeded |
| `Snapshots.SnapshotRepository.CommitWithOutbox` | src/snapshot/repository.rs:320-326 | the same with an outbox message in the same commit |
| `SnapshotRuns.SnapshotLoadsEqualFullReplay` | src/snapshot/repository.rs:80-112 | in every interleaving of reads, commits, saves and deletes by any clients, a load gives what a full hydration of the fetched entity gives, but for the snapshot version, which is that of the snapshot it used |
| `SnapshotRuns.HeldAggregatesHydrateBack` | src/snapshot/repository.rs:80-112 | in every interleaving, an aggregate in a client's hands is what its own log hydrates to |
| `SnapshotRuns.StoredSnapshotsFit` | src/snapshot/repository.rs:144-162 | in every reachable state a stored snapshot at version v is the fold of the first v upcast events of its log |
| `SnapshotLag.LagStaysBelowFrequency` | src/snapshot/repository.rs:124-162 | with one repository of frequency k and no deletions, no log is k or more events ahead of its snapshot |
| `SnapshotLag.NextLoadIsShort` | src/snapshot/repository.rs:17-43 | so the events that a load replays (those of `Snapshots.LoadReplays`) are fewer than k |
| `SnapshotLag.SnapshotAtEveryMultiple` | src/snapshot/repository.rs:144-162 | for every k and n, an aggregate that commits n events one by one ends up with its snapshot at the greatest multiple of k up to n |
| `SnapshotLag.LateSaveKeepsBoundIff` | src/snapshot/repository.rs:144-162 | where the bound holds for all ids, a save as a step of its own keeps it for all if and only if it is not due or its log has not run k events ahead; losing it moves a snapshot back |
| `SnapshotLag.SaveMovesBackIff` | src/snapshot/repository.rs:144-162 | such a save replaces a stored snapshot by an older one if and only if it is due and the aggregate is older than the snapshot stored for it |
| `SnapshotLag.LateSaveLosesBound` | src/snapshot/repository.rs:124-128 | for every frequency k there is a run of two clients from the empty store that loses the bound: the snapshot goes from version 2k back to k |
| `Todo.TodoLateSaveLosesBound` | tests/upcasting/aggregate.rs:136-157 | that run for the v2 todo and its snapshots |
| `OutboxMessages.NormalizeCollidesIff` | src/outbox/message.rs:275-282 | two message ids are the same message if and only if they differ by at most the prefix |
| `OutboxMessages.CommandedIsInvoked` | src/outbox/message.rs:209-273 | the five commands are the generated guarded commands |
| `OutboxMessages.LogIsLifecycle` | src/outbox/message.rs:209-273 | every reachable log is Created (Claimed Released)* and one of five endings, with attempts, worker and lease as the ending says |
| `OutboxMessages.EveryLifecycleOccurs` | src/outbox/message.rs:209-273 | and every such log is reachable |
| `OutboxMessages.AttemptsCountClaims` | src/outbox/message.rs:229-235 | attempts is the number of Claimed events |
| `OutboxMessages.TerminalForever` | src/outbox/message.rs:248-273 | Published and Failed are never left |
| `OutboxMessages.MessageHydratesBack` | src/outbox/message.rs:209-273 | the stored log of a message hydrates to the live message |
| `OutboxMessages.FieldsFollowLog` | src/outbox/message.rs:209-273 | in every run after a creation the message keeps the type, payload, destination and metadata it was created with; worker and lease are those of the last claim while in flight and none otherwise; the last error is that of the last release or failure |
| `OutboxMessages.DecodeInverts` | src/outbox/message.rs:325-331 | replay has an arm for exactly the five recorded forms, and it gives back the command that was recorded |
| `OutboxLogs.StoredLogsLive` | src/outbox_worker/repository_ext.rs:68-181 | in every run of commits, claims and settlements from the empty store each stored outbox log is what a creation and later commands record on one live message |
| `OutboxLogs.StoredLogIsLifecycle` | src/outbox_worker/repository_ext.rs:68-181 | so every stored log has the shape above, and hydrates to a message as its ending says |
| `OutboxMessages.OutboxMessage.Initialize` | src/outbox/message.rs:209-226 | records MessageCreated and makes the message pending under the normalized id, whatever it was before |
| `OutboxMessages.OutboxMessage.Claim` | src/outbox/message.rs:228-235 | only a pending message: records MessageClaimed, goes in flight with worker, lease and one more attempt; otherwise nothing changes |
| `OutboxMessages.OutboxMessage.Complete` | src/outbox/message.rs:248-253 | only in flight: records MessagePublished and drops worker and lease; otherwise nothing changes |
| `OutboxMessages.OutboxMessage.Release` | src/outbox/message.rs:255-261 | only in flight: records MessageReleased, pending again without worker and lease, an empty error text is none; otherwise nothing changes |
| `OutboxMessages.OutboxMessage.Fail` | src/outbox/message.rs:263-273 | unless Published or Failed: records MessageFailed with the same treatment of the error; otherwise nothing changes |
| `OutboxStore.SettleRefines` | src/outbox_worker/repository_ext.rs:104-180 | complete, release and fail, with or without the prefix in the id: a readable message is changed as the command does, whatever else is stored; a log that does not hydrate is an error and stays; a missing message is neither |
| `OutboxStore.ClaimRefines` | src/outbox_worker/repository_ext.rs:68-102 | on any store the claim on logs is the claim on messages, up to the first log that does not hydrate |
| `OutboxStore.OrdinaryLogsStay` | src/outbox_worker/repository_ext.rs:79-83 | logs whose id lacks the prefix are left as they are by claims and settlements |
| `OutboxStore.OrdinaryLogsAreIgnored` | src/outbox_worker/repository_ext.rs:79-83 | and whatever such a log holds, a claim returns the same |
| `OutboxStore.ClaimTakesFirstPending` | src/outbox_worker/repository_ext.rs:79-99 | with max >= 1 a claim takes exactly the first max pending messages of the iteration order and leaves the others alone |
| `OutboxStore.ClaimRespectsMaxIff` | src/outbox_worker/repository_ext.rs:89-98 | a claim stays within max if and only if max is positive or the first message visited is not pending |
| `OutboxStore.ClaimFailsIff` | src/outbox_worker/repository_ext.rs:79-99 | with max >= 1 a claim fails if and only if the order has a log that does not hydrate and fewer than max pending messages before the first one |
| `OutboxStore.ClaimStrandsIff` | src/outbox_worker/repository_ext.rs:79-99 | a claim fails and leaves messages in flight that nobody was handed if and only if at least one and fewer than max pending messages come before that log; it strands exactly those |
| `OutboxStore.FailedClaimStrandsMessage` | src/outbox_worker/repository_ext.rs:79-99 | the smallest such store: one pending message, then one log that does not hydrate |
| `OutboxStore.ClaimOutboxMessages` | src/outbox_worker/repository_ext.rs:68-102 | the loop computes the specified scan, error and early exit included |
| `OutboxStore.CompleteOutboxMessage` | src/outbox_worker/repository_ext.rs:104-129 | the method computes the specified change of the store |
| `OutboxStore.ReleaseOutboxMessage` | src/outbox_worker/repository_ext.rs:131-156 | the method computes the specified change of the store |
| `OutboxStore.FailOutboxMessage` | src/outbox_worker/repository_ext.rs:158-181 | the method computes the specified change of the store |
| `OutboxStore.HydrateMessage` | src/aggregate/aggregate.rs:56-77 | hydration of a message object, flag cleared on success and error |
| `OutboxWorkers.DeliveredAtMostOnce` | src/outbox_worker/thread.rs:85-126 | for any interleaving of any workers, with failing claims, failing publishes and stops, a message is on the bus at most once, exactly once if Published, never while Pending |
| `OutboxWorkers.DeliveredToDestination` | src/outbox_worker/thread.rs:167-208 | routed workers deliver each message to its destination queue, or to the fan-out log if it has none |
| `OutboxWorkers.DeliveredByKind` | src/outbox_worker/thread.rs:167-187 | with plain and routed workers on one bus, a delivery is in a named queue if and only if a routed worker made it and the message has a destination, and then it is that queue |
| `OutboxWorkers.StatsCountDeliveries` | src/outbox_worker/thread.rs:101-115 | messages_published counts a worker's deliveries, but for one in doubt between publish and complete |
| `OutboxWorkers.StoppedWorkerStrandsMessage` | src/outbox_worker/thread.rs:85-126 | a message claimed and not sent by a worker that stops is never delivered by anybody and never pending again |
| `OutboxDelivery.DeliverableIff` | src/outbox_worker/thread.rs:85-126 | in any reachable state, with some workers stopped and one going on, an undelivered message can still get on the bus without the stopped ones if and only if it is pending, or in the batch of a worker that goes on and not about to be dropped there |
| `OutboxDelivery.ClaimThenStopStrands` | src/outbox_worker/thread.rs:85-126 | such a loss is reached from the start in two steps: enqueue, and a claim by a worker that then stops |
| `OutboxDelivery.InFlightMessagesAreHeld` | src/outbox_worker/repository_ext.rs:89-94 | as long as no claim fails every message in flight is in some worker's batch |
| `OutboxDelivery.HopelessForever` | src/outbox_worker/thread.rs:85-126 | a message that is not deliverable in that sense stays so whatever the others do |
| `OutboxByHand.CompleteByHandIff` | src/outbox_worker/repository_ext.rs:104-129 | a completion by hand keeps exactly-once-if-Published for all continuations if and only if the message is not in flight or on the bus already |
| `OutboxByHand.ReleaseByHandIff` | src/outbox_worker/repository_ext.rs:131-156 | a release by hand keeps at-most-once for all continuations if and only if the message is not in flight, or in no batch, or only about to be dropped by the one worker there is |
| `OutboxThread.WorkerThread.PollOnce` | src/outbox_worker/thread.rs:85-126 | one round of the loop on the real store and bus is a run of the worker's own steps, also when the claim fails, and accounts for every message handed out in the statistics |
| `OutboxThread.WorkerThread.ClaimBatch` | src/outbox_worker/thread.rs:93-97 | the claim of a round is the poll step of the runs, or the failed poll when a log that does not hydrate is met too early |
| `OutboxThread.WorkerThread.PublishOne` | src/outbox_worker/thread.rs:183-187 | an event with the id, type, payload and metadata of the stored message is appended to its destination queue if the worker is a routed one and there is a destination, else to the log; a refused message changes nothing |
| `OutboxThread.WorkerThread.SettleOne` | src/outbox_worker/thread.rs:189-201 | completes what was sent, releases what was refused, and counts it |
| `OutboxThread.PolledBusHasNoDuplicates` | src/outbox_worker/thread.rs:85-126 | after a poll from any reachable state every id is on the bus at most once, exactly once if Published |
| `OutboxRetry.RetryBound` | src/outbox_worker/worker.rs:93-134 | whatever the publisher answers, a pending message is Published or Failed within max(1, max_attempts - attempts) calls; each call before that publishes once and none after |
| `OutboxRetry.RefusalsCostAttempts` | src/outbox_worker/worker.rs:117-131 | while the publisher refuses, each call costs one attempt and one publish, and the message fails with the last call of its budget and not before |
| `OutboxRetry.TallyBalances` | src/outbox_worker/worker.rs:137-157 | claimed = completed + released + failed, and all messages are counted if and only if none was terminal |
| `OutboxRetry.ReportTells` | src/outbox_worker/worker.rs:93-134 | a call reports work if and only if the message was live, and completed, released or failed if and only if it left it Published, Pending or Failed |
| `OutboxRetry.TallyTells` | src/outbox_worker/worker.rs:137-157 | the three counters of a batch are the numbers of live messages that it left Published, Pending and Failed |
| `OutboxRetry.ProcessedRecords` | src/outbox_worker/worker.rs:93-134 | what a call adds to the log: a claim under the name and lease of the worker if the message was pending, then one completion, failure or release with the error of the publisher, as the attempts say |
| `OutboxRetry.OutboxWorker.ProcessMessage` | src/outbox_worker/worker.rs:93-134 | what one call does to the message and reports, as the lemmas above describe it; the publisher is given type, payload and metadata of a live message, once |
| `OutboxRetry.OutboxWorker.ProcessBatch` | src/outbox_worker/worker.rs:137-157 | the first batch_size messages are each processed once and tallied; the rest are untouched |
| `QueueRuns.QueueDeliversInOrder` | src/bus/in_memory_queue.rs:319-353 | with any competing listeners a named queue has handed out exactly the first position messages sent to it, in order, each to one listener |
| `QueueRuns.ReceiverSeesMatchingEvents` | src/bus/in_memory_queue.rs:217-239 | a receiver's results are exactly the matching events, in order, of the log prefix it has read |
| `QueueRuns.RecvIsPolls` | src/bus/in_memory_queue.rs:217-239 | a call of recv is a series of the run's polls and keeps that relation |
| `EndToEnd.HandedAtMostOnce` | src/bus/in_memory_queue.rs:319-353 | end to end, in every run of workers and listeners an outbox message is handed to at most one listener, at most once |
| `EndToEnd.HandedExactlyOnce` | src/outbox_worker/thread.rs:183-201 | with routed workers a Published message with a destination has been handed to exactly one listener once its queue is drained |
| `EndToEnd.HandedAsStored` | src/outbox_worker/thread.rs:173-187 | in every run of workers and listeners what a listener is handed is a stored message, from the queue that is its destination, with exactly its type, payload and metadata |
| `Queues.InMemoryQueue.Poll` | src/bus/in_memory_queue.rs:273-295 | the next event of the log, or nothing at its end |
| `Queues.InMemoryQueue.Publish` | src/bus/in_memory_queue.rs:260-263 | appends to the log |
| `Queues.InMemoryQueue.Send` | src/bus/in_memory_queue.rs:320-328 | appends to one queue |
| `Queues.InMemoryQueue.Listen` | src/bus/in_memory_queue.rs:332-353 | hands out the next message of a queue and moves the shared position |
| `Queues.InMemoryQueue.NewSubscriber` | src/bus/in_memory_queue.rs:309-316 | a subscriber to the same log from its beginning |
| `Queues.EventReceiver.Recv` | src/bus/in_memory_queue.rs:217-239 | the first matching event after the position; what it skips does not match |
| `Locks.WakeUpsAreNotLost` | src/lock/in_memory.rs:30-69 | in every run, whenever the lock is free while threads wait, one has been notified and gets the lock when it resumes |
| `Locks.StepKeepsExclusiveIff` | src/lock/in_memory.rs:59-69 | a step keeps at most one holder, told by the flag, if and only if it is not an unlock of a held lock by somebody else |
| `Locks.MutualExclusion` | src/lock/in_memory.rs:30-69 | if only holders unlock, every run has at most one holder |
| `Locks.StrayUnlockMakesTwoHolders` | src/lock/in_memory.rs:59-69 | unlocking somebody else's lock lets a second holder in |
| `Locks.InMemoryLock.Lock` | src/lock/in_memory.rs:31-44 | the wait loop ends if and only if the flag is found unset, at first or at some wake-up |
| `Locks.InMemoryLock.TryLock` | src/lock/in_memory.rs:46-57 | takes the lock if and only if it is free |
| `Locks.InMemoryLock.Unlock` | src/lock/in_memory.rs:59-69 | the lock is free afterwards, and a waiter is notified if and only if it was held |
| `Locks.InMemoryLockManager.GetLock` | src/lock/in_memory.rs:97-106 | one lock per id, the same ever after, and different ids have different locks |
| `LockOrder.SortDedupIncreases` | src/queued_repo/repository.rs:92-95 | sorting and removing duplicates gives a strictly increasing list |
| `LockOrder.BeforeIffFirstDifference` | src/queued_repo/repository.rs:92-95 | the order is the lexicographic one: decided at the first difference, a proper prefix first |
| `LockOrder.SameRequestSameOrder` | src/queued_repo/repository.rs:92-95 | requests for the same ids lock in the same order |
| `LockOrder.IncreasingIsUnique` | src/read_model/queued.rs:89-92 | a set of ids has one strictly increasing list |
| `KeyedLocks.LockTable.LockIdsInOrder` | src/queued_repo/repository.rs:92-105 | takes the distinct ids' locks one by one in increasing order up to the first it has to wait for |
| `KeyedLocks.LockTable.Acquire` | src/queued_repo/repository.rs:88-90 | takes the lock of one id, or waits for it |
| `KeyedLocks.LockTable.Unlock` | src/queued_repo/repository.rs:78-86 | frees the lock of one id and no other |
| `QueuedRepo.QueuedRepository.GetOne` | src/queued_repo/repository.rs:112-117 | takes the lock even when the entity is missing, then reads |
| `QueuedRepo.QueuedRepository.GetMany` | src/queued_repo/repository.rs:120-125 | takes the locks of all ids in order, then reads; while still waiting it holds exactly the locks before the first it has to wait for |
| `QueuedRepo.QueuedRepository.Commit` | src/queued_repo/repository.rs:198-220 | the wrapped commit, and the locks of its entities are freed if and only if it succeeded |
| `QueuedRuns.NoConcurrentWrite` | src/queued_repo/repository.rs:198-220 | clients that get, digest, then commit or abort never see a concurrent write |
| `QueuedRuns.LogFollowsLockOrder` | src/queued_repo/repository.rs:112-125 | the log is the concatenation of what its lock's holders committed, in the order in which they got the lock |
| `QueuedRuns.SomeClientCanStep` | src/queued_repo/repository.rs:92-105 | deadlock freedom: while a client is in the middle of a round, some client can take a step towards the end of its round |
| `QueuedRuns.TotalWorkShrinks` | src/queued_repo/repository.rs:92-105 | every such step is one fewer to go |
| `QueuedRuns.AllLocksCanBeHandedBack` | src/queued_repo/repository.rs:198-220 | from every reachable state all clients can finish within a known number of steps, and then every lock is free |
| `QueuedLocks.SomeClientAdvances` | src/lock/in_memory.rs:30-69 | deadlock freedom on locks with waiting, notified and spuriously woken threads: while a client is in the middle of a round, some client can take a step that brings it closer to the end |
| `QueuedLocks.NoDeadlockInAnyRun` | src/queued_repo/repository.rs:92-105 | the same at the end of every run of clients on such locks |
| `QueuedLocks.AllCanFinish` | src/queued_repo/repository.rs:198-220 | from every such state all clients can finish within the work left, and then no lock is taken |
| `ReadModels.KeysCollideIff` | src/read_model/in_memory.rs:36-38 | two models share a key if and only if they are the same or a ':' in the one's id makes up for the other's collection name |
| `ReadModels.RefusalTells` | src/read_model/in_memory.rs:111-188 | which writes are refused and with which error: NotFound if and only if an update finds no entry; a conflict if and only if an insert finds one or an update another version, with the expected and the stored version |
| `ReadModels.InMemoryReadModelStore.SaveRaw` | src/read_model/in_memory.rs:41-61 | stores the bytes under the next version |
| `ReadModels.InMemoryReadModelStore.Upsert` | src/read_model/in_memory.rs:85-109 | stores the bytes under the next version |
| `ReadModels.InMemoryReadModelStore.Insert` | src/read_model/in_memory.rs:111-142 | version 1, or a conflict if the entry exists |
| `ReadModels.InMemoryReadModelStore.Update` | src/read_model/in_memory.rs:144-188 | the next version, or NotFound, or a conflict unless the expected version is the stored one |
| `ReadModels.InMemoryReadModelStore.Delete` | src/read_model/in_memory.rs:190-198 | the entry is gone; says whether there was one |
| `ReadModels.InMemoryReadModelStore.GetModel` | src/read_model/in_memory.rs:65-83 | the stored entry, if any |
| `ReadModels.QueuedReadModelStore.GetModel` | src/read_model/queued.rs:114-119 | takes the key's lock, then reads |
| `ReadModels.QueuedReadModelStore.Apply` | src/read_model/queued.rs:121-159 | the wrapped write, and the lock is freed if and only if the write succeeded |
| `ReadModelRuns.NoLostUpdate` | src/read_model/queued.rs:114-150 | in every run the stored entry is the composition of all accepted writes, each applied to the outcome of the one before |
| `ReadModelRuns.SessionWriteAcceptedIff` | src/read_model/queued.rs:121-159 | in a session an update with the version just read is accepted if and only if there was an entry, an insert if and only if there was none, other writes always; no update conflicts |
| `ReadModelRuns.VersionCountsWrites` | src/read_model/in_memory.rs:85-188 | a version is the number of writes since the entry was created |
| `UnlockedRuns.AcceptedUpdateSawCurrentEntry` | src/read_model/in_memory.rs:144-188 | without locks, in every run since a read in which nobody deletes the key, an accepted update was computed from the entry stored now, so no update is lost |
| `UnlockedRuns.RecreatedEntry` | src/read_model/in_memory.rs:111-142 | delete, insert and upserts bring a key back to any version with other bytes, because a new entry starts at version 1 |
| `UnlockedRuns.StaleUpdatePossibleIff` | src/read_model/in_memory.rs:144-198 | after reading an entry a stale update can be accepted if and only if somebody may delete the key in between |
| `CommitBuilders.AllOrNothing` | src/commit_builder/mod.rs:63-126 | with distinct ids all logs of a commit grow or none does, and the result says which; on success every read model's version grows by its saves, on an error store, entities and read models are as they were |
| `CommitBuilders.EnqueuedOnlyOnce` | src/outbox/commit.rs:18-21 | a commit with a newly created message whose id is stored already commits nothing at all |
| `CommitBuilders.EnqueuedOnce` | src/outbox/commit.rs:18-21 | one that is new puts exactly its creation event in the store |
| `OutboxEnqueue.CommitEnqueues` | src/commit_builder/mod.rs:57-78 | a commit of any number of created messages among other entities adds exactly these messages as pending and touches no other message |
| `OutboxEnqueue.CommitIsEnqueueSteps` | src/commit_builder/mod.rs:57-78 | with k created messages it is k enqueue steps of the worker runs |
| `CommitBuilders.SavedInOrder` | src/commit_builder/mod.rs:120-126 | per key the version grows by the number of saves and the last bytes stay; other keys are untouched |
| `CommitBuilders.TornCommitIff` | src/commit_builder/mod.rs:63-82 | a reader can see a commit in part if and only if it succeeds, has read models to write, and brings something to the store or has more than one of them |
| `CommitBuilders.StagesEndInBuilt` | src/commit_builder/mod.rs:63-82 | the states in between start with the state before the commit and end with what it leaves behind |
| `CommitBuilders.EventsShowBeforeReadModels` | src/commit_builder/mod.rs:63-82 | such a state: the new events are there and no read model is |
| `CommitBuilders.CommitBuilder.Commit` | src/commit_builder/mod.rs:63-82 | the queued entities, then the aggregate, then the read models, all or nothing |
| `CommitBuilders.CommitBuilder.CommitMany` | src/commit_builder/mod.rs:88-106 | the same with several entities |
| `CommitBuilders.CommitBuilder.CommitAll` | src/commit_builder/mod.rs:109-128 | the same without an aggregate; no entities means no commit |
| `SchemaEvolution.HydrateCommutes` | src/aggregate/aggregate.rs:56-77 | a transform that commutes with every event lifts to whole logs: what the old type hydrates, the new one hydrates to the image |
| `SchemaEvolution.RunCommutes` | src/aggregate/aggregate.rs:60-74 | so does any log the old type recorded in any command run |
| `Todo.V1LogsHydrateAsV3` | tests/upcasting/aggregate.rs:83-122 | every log of a v1 todo hydrates as v3 with the same id, user, task and completed flag, priority 0, no due date |
| `Todo.MixedLogsHydrateAlike` | tests/upcasting/aggregate.rs:41-122 | a log of v1 and v2 events means the same to v2 and to v3 |
| `Todo.UpcastToV3` | tests/upcasting/aggregate.rs:114-122 | what the chained upcasters make of any event |
| `Todo.HydratedTodo` | tests/upcasting/aggregate.rs:91-122 | a hydrated v3 todo has exactly the arguments of the last initialization of its upcast log as its fields, and is completed if and only if some event says so |
| `Todo.TodoSnapshotsAreLawful` | tests/upcasting/aggregate.rs:136-157 | the v2 snapshots restore what they were taken of, so the snapshot results apply to them |
| `Inventory.StockIsConserved` | tests/sagas/order/inventory.rs:49-77 | available + reserved + sold is the initial stock; reserved is the sum of open reservations plus what was overwritten |
| `Inventory.NoOverflow` | tests/sagas/order/inventory.rs:49-77 | so no 32-bit operation under- or overflows |
| `Inventory.StaysInRangeIff` | tests/sagas/order/inventory.rs:49-77 | a stock that covers its reservations stays in 32 bits under all later commands if and only if available + reserved fits in 32 bits |
| `Inventory.SecondInitializeKeepsBalanceIff` | tests/sagas/order/inventory.rs:49-54 | a second initialize keeps the balance if and only if it names the quantity available |
| `Inventory.SecondInitializeIsSafeIff` | tests/sagas/order/inventory.rs:49-77 | after a second initialize nothing ever overflows if and only if the new quantity plus what is reserved fits in 32 bits |
| `Inventory.SecondInitializeCanOverflow` | tests/sagas/order/inventory.rs:49-70 | the smallest unsafe run: a release after a second initialize reaches 2^32 |
| `Inventory.HydratedStockIsConserved` | tests/sagas/order/inventory.rs:89-94 | the stored log hydrates to a balanced stock |
| `Inventory.StockFollowsLog` | tests/sagas/order/inventory.rs:49-77 | in every run the reservation of an order is the last one in the log that nothing ended, and sku and id are those of the last initialization |
| `Inventory.DecodeInverts` | tests/sagas/order/inventory.rs:89-94 | replay has an arm for exactly the recorded forms, and it gives back the command that was recorded |
| `Inventory.InventoryObject.Reserve` | tests/sagas/order/inventory.rs:56-61 | only if enough is available: records the event, moves the quantity to reserved and replaces the order's reservation; otherwise nothing changes |
| `Inventory.InventoryObject.ReleaseReservation` | tests/sagas/order/inventory.rs:63-69 | only for an open reservation: records the event and gives the whole quantity back; otherwise nothing changes |
| `Inventory.InventoryObject.CommitReservation` | tests/sagas/order/inventory.rs:71-77 | only for an open reservation: records the event and takes the quantity out of stock; otherwise nothing changes |
| `Inventory.InventoryObject.Initialize` | tests/sagas/order/inventory.rs:49-54 | records the event, takes the sku as id and sets the available quantity, without a guard |
| `Saga.OutcomeMatchesLog` | tests/sagas/order/saga.rs:103-158 | Completed: both steps once and neither compensated; Failed: exactly the steps done were compensated; the flags are the difference of the event counts |
| `Saga.OutcomeIsFinal` | tests/sagas/order/saga.rs:89-91 | Completed and Failed are never left and nothing more is recorded |
| `Saga.CompensationReachesFailed` | tests/sagas/order/saga.rs:139-158 | a saga that is not over can always be brought to Failed with everything compensated |
| `Saga.RestartChargesTwice` | tests/sagas/order/saga.rs:103-135 | a saga started again after it completed has two payments in its log |
| `Saga.OverRefusesIff` | tests/sagas/order/saga.rs:103-158 | a completed or failed saga is left as it is by a command if and only if it is not a start |
| `Saga.PaidAtMostOncePerStart` | tests/sagas/order/saga.rs:103-131 | payments and reservations in the log are never more than starts |
| `Saga.ChargedOncePerStart` | tests/sagas/order/saga.rs:103-131 | and for any number of starts a run has that many payments |
| `Saga.StartChargesAgain` | tests/sagas/order/saga.rs:103-131 | whatever happened before, a start lets the saga reserve and charge once more |
| `Saga.SagaHydratesBack` | tests/sagas/order/saga.rs:174-183 | the stored log hydrates to the live saga |
| `Saga.FieldsFollowLog` | tests/sagas/order/saga.rs:103-143 | in every run id and order data are those of the last start and the failure reason is that of the last failed step, also after another start |
| `Saga.DecodeInverts` | tests/sagas/order/saga.rs:174-183 | replay has an arm for exactly the recorded forms, and it gives back the command that was recorded |
| `Saga.OrderFulfillmentSaga.Start` | tests/sagas/order/saga.rs:103-118 | records SagaStarted, takes the id and resets the status only, without a guard |
| `Saga.OrderFulfillmentSaga.ReserveInventory` | tests/sagas/order/saga.rs:120-124 | only when started: records the event, advances the status and sets the flag; otherwise nothing changes |
| `Saga.OrderFulfillmentSaga.SucceedPayment` | tests/sagas/order/saga.rs:126-130 | only after the reservation: records the event, advances the status and sets the flag; otherwise nothing changes |
| `Saga.OrderFulfillmentSaga.Complete` | tests/sagas/order/saga.rs:132-135 | only after the payment: records the event and completes; otherwise nothing changes |
| `Saga.OrderFulfillmentSaga.FailStep` | tests/sagas/order/saga.rs:139-143 | unless completed or failed: records the event, starts compensating and keeps step and reason; otherwise nothing changes |
| `Saga.OrderFulfillmentSaga.CompensateInventory` | tests/sagas/order/saga.rs:145-148 | only while compensating with the flag set: records the event and clears the flag; otherwise nothing changes |
| `Saga.OrderFulfillmentSaga.CompensatePayment` | tests/sagas/order/saga.rs:150-153 | only while compensating with the flag set: records the event and clears the flag; otherwise nothing changes |
| `Saga.OrderFulfillmentSaga.MarkFailed` | tests/sagas/order/saga.rs:155-158 | only while compensating with both flags clear: records the event and fails; otherwise nothing changes |

## Left out

- HTTP, gRPC, `microsvc` dispatch, sessions, the build script and macro parsing: transport and code generation, no invariant of their own.
- Bytes of bitcode, serde_json and base64: payloads and snapshots are structured values. An upcaster transform that panics on bytes it cannot read leaves such a payload unchanged here.
- Wall-clock values: timestamps, `created_at`, sleeps and timeouts; a lease end is a number given by the caller.
- Integer widths of versions, sequence numbers, `attempts` and counters: unbounded, except for the inventory's 32-bit fields; `version >= snapshot_version + frequency` is not checked for overflow.
- The order of the metadata entries of an event on the bus, which is that of a hash map's iteration: they are a map here.
- Lock poisoning, thread start, stop channels and joins.
- `Entity::set_snapshot`, `rehydrate`, `clear_metadata`, `EventEmitter` callbacks, `OutboxMessage::set_meta` (not recorded), metadata accessors.
- `find`, `find_one`, `exists`, `count` of all repositories: scans with a caller's predicate; `QueuedRepository::find` and `find_models` also keep or release locks of entities that no longer match. In `ReadModelRuns` a find is a series of reads and releases.
- `QueuedRepository::lock` (ignores the answer of `try_lock`), the no-lock read options, `InMemoryQueue::clear`, `reset_position`, `acknowledged`, and `EventReceiver::try_recv` (returns before its first poll).
- `SnapshotAggregateRepository::get_all` and `commit_all` as methods: modelled on values, as separate loads and as the step `CommitAndSave` of `SnapshotRuns`.
- The classes `TodoV1`, `TodoV2`, `TodoV3`: given as aggregate types that `Aggregates.AggregateRoot` runs, without a class of their own. Custom snapshot ids that differ from the entity id are not modelled.
- Concurrency inside the classes: each method is one uninterrupted call. Interleaving is modelled by the step systems on values; only the worker thread is tied to its step system as an object.
- Fairness: that a thread which can step eventually does. `QueuedLocks.AllCanFinish` and `QueuedRuns.TotalWorkShrinks` bound the steps that are left; they do not schedule them.
- OrderItem lists of the saga: opaque bytes, so the encoding of items is not part of this model.
- Queues.EventReceiver.Recv: states what one call consumes and returns; that a later publish is seen is `QueueRuns.ReceiverSeesMatchingEvents`.
