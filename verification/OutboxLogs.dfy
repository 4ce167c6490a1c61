/** The stored logs of outbox messages, as hydrate, command and write back make them
    (src/outbox_worker/repository_ext.rs): each is the log of some life of a live message, so
    what is proved of live messages holds of them. */
module OutboxLogs {
  import opened Basics
  import opened Events
  import opened Entities
  import opened EventStore
  import opened Aggregates
  import opened OutboxMessages
  import opened OutboxStore
  import opened OutboxEnqueue

  // ---- The life behind a log ---------------------------------------------------------

  /** `log` is what a creation and some later commands record on one live message. */
  ghost predicate IsLife(id: string, log: seq<EventRecord>, create: Command, cs: seq<Command>)
  {
    && create.Initialize? && (forall i :: 0 <= i < |cs| ==> !cs[i].Initialize?)
    && var e := Performed([create] + cs).entity; e.events == log && e.id == id
  }

  ghost predicate Lived(id: string, log: seq<EventRecord>)
  {
    exists create, cs :: IsLife(id, log, create, cs)
  }

  lemma {:induction false} PerformedMetadata(cs: seq<Command>)
    ensures Performed(cs).entity.metadata == map[]
  {
    if cs != [] {
      var front, c := cs[..|cs| - 1], cs[|cs| - 1];
      PerformedMetadata(front);
      assert cs == front + [c];
      PerformedSnoc(OUTBOX, Encode, front, c);
    }
  }

  /** A message hydrated from a life of its own is the live message. */
  lemma LifeHydrates(id: string, log: seq<EventRecord>, create: Command, cs: seq<Command>)
    requires IsLife(id, log, create, cs)
    ensures Hydrated(OUTBOX, Loaded(id, log)) == Ok(Aggregate(Loaded(id, log), Performed([create] + cs).state, []))
  {
    MessageHydratesBack([create] + cs);
  }

  /** A command records the same event on the live and on the hydrated message. */
  lemma SameEvent(a: Aggregate<MessageState>, b: Aggregate<MessageState>, c: Command)
    requires !c.Initialize? && a.state == b.state && a.entity.events == b.entity.events
    requires !a.entity.replaying && !b.entity.replaying && a.entity.metadata == b.entity.metadata
    ensures var live := Called(OUTBOX, a, Encode(c)).entity;
      live.events == Commanded(b, c).entity.events && live.id == a.entity.id
  {
    DecodeEncode(c);
  }

  lemma CommandKeepsLife(id: string, log: seq<EventRecord>, c: Command)
    requires Lived(id, log) && !c.Initialize?
    ensures Hydrated(OUTBOX, Loaded(id, log)).Ok?
    ensures Lived(id, Commanded(Hydrated(OUTBOX, Loaded(id, log)).value, c).entity.events)
  {
    var create, cs :| IsLife(id, log, create, cs);
    var whole := [create] + cs;
    LifeHydrates(id, log, create, cs);
    NeverReplaying(OUTBOX, Encoded(Encode, whole));
    PerformedMetadata(whole);
    var hydrated := Hydrated(OUTBOX, Loaded(id, log)).value;
    SameEvent(Performed(whole), hydrated, c);
    PerformedSnoc(OUTBOX, Encode, whole, c);
    assert [create] + (cs + [c]) == whole + [c];
    assert IsLife(id, Commanded(hydrated, c).entity.events, create, cs + [c]);
  }

  lemma CreatedLives(create: Command)
    requires create.Initialize?
    ensures Lived(Created(create).id, Created(create).events)
  {
    CreatedHydrates(create);
    assert [create] + [] == [create];
    assert IsLife(Created(create).id, Created(create).events, create, []);
  }

  // ---- The store ---------------------------------------------------------------------

  ghost predicate AllLived(store: Store)
  {
    forall id :: id in store && IsOutboxId(id) ==> Lived(id, store[id])
  }

  lemma LivedIsReadable(store: Store, id: string)
    requires AllLived(store) && id in store && IsOutboxId(id)
    ensures Readable(store, id) && MessageAt(store, id).value.entity.id == id && store[id] != []
  {
    var create, cs :| IsLife(id, store[id], create, cs);
    LifeHydrates(id, store[id], create, cs);
    var rounds, e := LogIsLifecycle(create, cs);
  }

  lemma WriteBackKeepsLived(store: Store, id: string, c: Command)
    requires AllLived(store) && id in store && IsOutboxId(id) && !c.Initialize?
    ensures Readable(store, id)
    ensures AllLived(store[id := Commanded(MessageAt(store, id).value, c).entity.events])
  {
    LivedIsReadable(store, id);
    CommandKeepsLife(id, store[id], c);
  }

  lemma {:induction false} ScanKeepsLived(store: Store, order: seq<string>, claimed: seq<Aggregate<MessageState>>, worker: string, max: nat, until: nat)
    requires AllLived(store)
    ensures AllLived(Scan(store, order, claimed, worker, max, until).store)
    decreases |order|
  {
    if order == [] {
      return;
    }
    var id, rest := order[0], order[1..];
    if !IsOutboxId(id) || id !in store {
      ScanKeepsLived(store, rest, claimed, worker, max, until);
    } else {
      WriteBackKeepsLived(store, id, Claim(worker, until));
      if View(store)[id].status == Pending {
        var b := Commanded(MessageAt(store, id).value, Claim(worker, until));
        if |claimed| + 1 < max {
          ScanKeepsLived(store[id := b.entity.events], rest, claimed + [b.(entity := MarkedCommitted(b.entity))], worker, max, until);
        }
      } else if |claimed| < max {
        ScanKeepsLived(store, rest, claimed, worker, max, until);
      }
    }
  }

  lemma SettledKeepsLived(store: Store, messageId: string, c: Command)
    requires AllLived(store) && (c.Complete? || c.Release? || c.Fail?)
    ensures AllLived(Settled(store, messageId, c).1)
  {
    var id := NormalizeId(messageId);
    if id in store {
      WriteBackKeepsLived(store, id, c);
    }
  }

  lemma CommitKeepsLived(store: Store, batch: seq<EntityState>, creates: seq<Option<Command>>)
    requires AllLived(store) && Enqueues(batch, creates) && AfterCommit(store, batch).result.Ok?
    ensures AllLived(AfterCommit(store, batch).store)
  {
    var after := AfterCommit(store, batch).store;
    CommitSucceedsIff(store, batch);
    forall id | id in after && IsOutboxId(id) ensures Lived(id, after[id]) {
      AppendAllKeys(store, batch, id);
      AppendAllLog(store, batch, id);
      NewEventsForDistinct(batch, id);
      if i :| 0 <= i < |batch| && batch[i].id == id {
        assert creates[i].Some? && UpToDate(store, batch[i]);
        CreatedHydrates(creates[i].value);
        CreatedLives(creates[i].value);
        assert after[id] == [] + batch[i].events == batch[i].events;
      } else {
        assert after[id] == store[id] + [] == store[id];
      }
    }
  }

  // ---- Runs --------------------------------------------------------------------------

  datatype Operation =
    | Save(batch: seq<EntityState>, creates: seq<Option<Command>>)
    | Take(order: seq<string>, worker: string, max: nat, until: nat)
    | Settle(messageId: string, command: Command)

  /** A commit that the store refuses changes nothing, and neither does a step that is none
      of the operations. */
  ghost function After(store: Store, op: Operation): Store
  {
    match op
    case Save(batch, creates) => if Enqueues(batch, creates) then AfterCommit(store, batch).store else store
    case Take(order, worker, max, until) => Scan(store, order, [], worker, max, until).store
    case Settle(id, c) => if c.Complete? || c.Release? || c.Fail? then Settled(store, id, c).1 else store
  }

  ghost function Run(ops: seq<Operation>): Store
  {
    if ops == [] then map[] else After(Run(ops[..|ops| - 1]), ops[|ops| - 1])
  }

  /** In every run of commits, claims and settlements from the empty store, whatever they
      return, each outbox log is the log of a life. */
  lemma {:induction false} StoredLogsLive(ops: seq<Operation>)
    ensures AllLived(Run(ops))
  {
    if ops != [] {
      var store, op := Run(ops[..|ops| - 1]), ops[|ops| - 1];
      StoredLogsLive(ops[..|ops| - 1]);
      match op {
        case Save(batch, creates) =>
          if Enqueues(batch, creates) && AfterCommit(store, batch).result.Ok? {
            CommitKeepsLived(store, batch, creates);
          }
        case Take(order, worker, max, until) => ScanKeepsLived(store, order, [], worker, max, until);
        case Settle(id, c) =>
          if c.Complete? || c.Release? || c.Fail? {
            SettledKeepsLived(store, id, c);
          }
      }
    }
  }

  /** So every stored log is Created (Claimed Released)* and one of the five endings, and the
      message it hydrates to is as that ending says; no claim ever fails. */
  lemma StoredLogIsLifecycle(ops: seq<Operation>, id: string) returns (rounds: nat, e: Ending)
    requires id in Run(ops) && IsOutboxId(id)
    ensures Readable(Run(ops), id) && MessageAt(Run(ops), id).value.entity.id == id
    ensures Describes(MessageAt(Run(ops), id).value, rounds, e)
  {
    StoredLogsLive(ops);
    var log := Run(ops)[id];
    var create, cs :| IsLife(id, log, create, cs);
    LifeHydrates(id, log, create, cs);
    rounds, e := LogIsLifecycle(create, cs);
  }
}
