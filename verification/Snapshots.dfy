/** Snapshots as a shortcut for replay (src/snapshot/repository.rs, src/snapshot/in_memory.rs). */
module Snapshots {
  import opened Basics
  import opened Events
  import opened Entities
  import opened EventStore
  import opened Upcasting
  import opened Aggregates

  /** An aggregate type with its snapshot codec. `restore` acts on a default aggregate and
      yields nothing when the bytes do not decode. */
  datatype Snapshottable<!S> = Snapshottable(
    spec: Spec<S>,
    create: Domain<S> -> Payload,
    restore: Payload -> Option<Domain<S>>)

  datatype SnapshotRecord = SnapshotRecord(aggregateId: string, version: nat, data: Payload)

  type SnapshotStore = map<string, SnapshotRecord>

  /** The law of a snapshottable type: a snapshot restores the id and state it was taken of. */
  ghost predicate Restores<S(!new)>(sn: Snapshottable<S>)
  {
    forall d :: sn.restore(sn.create(d)) == Some(d)
  }

  function EventsAfter(version: nat, events: seq<EventRecord>): seq<EventRecord>
  {
    Filter((e: EventRecord) => e.sequence > version, events)
  }

  function HydratedFromSnapshot<S>(sn: Snapshottable<S>, e: EntityState, snap: SnapshotRecord): Result<Aggregate<S>, RepositoryError>
  {
    match sn.restore(snap.data)
    case None => Err(Replay("snapshot deserialize"))
    case Some(d) =>
      var start := Aggregate(e.(snapshotVersion := snap.version, id := d.id, replaying := true), d.state, []);
      StopReplaying(ReplayedAll(sn.spec, start, UpcastEvents(sn.spec.upcasters, EventsAfter(snap.version, e.events))))
  }

  /** A snapshot that is newer than the fetched entity is ignored. */
  function HydratedWithOptionalSnapshot<S>(sn: Snapshottable<S>, e: EntityState, snap: Option<SnapshotRecord>): Result<Aggregate<S>, RepositoryError>
  {
    if snap.Some? && snap.value.version <= e.version then HydratedFromSnapshot(sn, e, snap.value)
    else Hydrated(sn.spec, e)
  }

  /** The snapshot decision after a successful commit. */
  function SnapshotDue<S>(a: Aggregate<S>, frequency: nat): bool
  {
    a.entity.version >= a.entity.snapshotVersion + frequency
  }

  function SnapshotOf<S>(sn: Snapshottable<S>, a: Aggregate<S>): SnapshotRecord
  {
    SnapshotRecord(a.entity.id, a.entity.version, sn.create(Domain(a.entity.id, a.state)))
  }

  // ---- Restoring equals replaying ----------------------------------------------------

  /** `snap` holds what replaying the first `snap.version` events of `log` gives. */
  ghost predicate Fits<S>(sn: Snapshottable<S>, id: string, log: seq<EventRecord>, snap: SnapshotRecord)
  {
    && snap.aggregateId == id && snap.version <= |log|
    && var events := UpcastEvents(sn.spec.upcasters, log[..snap.version]);
       var d := Fold(sn.spec, Domain(id, sn.spec.init), events);
       AllArms(sn.spec, events) && d.id == id && snap.data == sn.create(d)
  }

  lemma {:induction false} AfterIsSuffix(version: nat, events: seq<EventRecord>)
    requires Numbered(events) && version <= |events|
    ensures EventsAfter(version, events) == events[version..]
    decreases |events|
  {
    if version < |events| {
      var front := events[..|events| - 1];
      AfterIsSuffix(version, front);
      assert events[version..] == front[version..] + [events[|events| - 1]];
    } else {
      NothingAfter(version, events);
    }
  }

  lemma {:induction false} NothingAfter(version: nat, events: seq<EventRecord>)
    requires Numbered(events) && |events| <= version
    ensures EventsAfter(version, events) == []
  {
    if events != [] {
      NothingAfter(version, events[..|events| - 1]);
    }
  }

  lemma FirstUnknownAfterKnown<S>(spec: Spec<S>, a: seq<EventRecord>, b: seq<EventRecord>)
    requires AllArms(spec, a) && !AllArms(spec, b)
    ensures !AllArms(spec, a + b)
    ensures (a + b)[FirstUnknown(spec, a + b)] == b[FirstUnknown(spec, b)]
  {
    var j := FirstUnknown(spec, b);
    assert (a + b)[|a| + j] == b[j];
    assert forall k :: 0 <= k < |a| ==> (a + b)[k] == a[k];
    assert forall k :: 0 <= k < j ==> (a + b)[|a| + k] == b[k];
    assert FirstUnknown(spec, a + b) == |a| + j;
  }

  /** Replaying `a + b` is replaying `b` from where `a` leads. */
  lemma ReplaySplits<S>(spec: Spec<S>, start: Aggregate<S>, middle: Aggregate<S>, a: seq<EventRecord>, b: seq<EventRecord>)
    requires start.entity.replaying && AllArms(spec, a)
    requires ReplayedAll(spec, start, a) == Ok(middle)
    ensures ReplayedAll(spec, start, a + b) == ReplayedAll(spec, middle, b)
  {
    ReplayIsFold(spec, start, a);
    ReplayIsFold(spec, start, a + b);
    ReplayIsFold(spec, middle, b);
    FoldConcat(spec, Domain(start.entity.id, start.state), a, b);
    if AllArms(spec, b) {
      assert AllArms(spec, a + b);
    } else {
      FirstUnknownAfterKnown(spec, a, b);
    }
  }

  /** Loading through a fitting snapshot gives the same result as a full replay, errors
      included; only the recorded snapshot version differs. */
  lemma SnapshotEqualsReplay<S(!new)>(sn: Snapshottable<S>, e: EntityState, snap: SnapshotRecord)
    requires Restores(sn) && Numbered(e.events) && Fits(sn, e.id, e.events, snap)
    ensures HydratedFromSnapshot(sn, e, snap) == Hydrated(sn.spec, e.(snapshotVersion := snap.version))
  {
    var us := sn.spec.upcasters;
    var older, newer := UpcastEvents(us, e.events[..snap.version]), UpcastEvents(us, e.events[snap.version..]);
    assert UpcastEvents(us, e.events) == older + newer by {
      assert e.events == e.events[..snap.version] + e.events[snap.version..];
      UpcastEventsConcat(us, e.events[..snap.version], e.events[snap.version..]);
    }
    AfterIsSuffix(snap.version, e.events);
    var d := Fold(sn.spec, Domain(e.id, sn.spec.init), older);
    assert sn.restore(snap.data) == Some(d);
    var start := SetReplaying(New(sn.spec).(entity := e.(snapshotVersion := snap.version)), true);
    var middle := Aggregate(e.(snapshotVersion := snap.version, id := d.id, replaying := true), d.state, []);
    ReplayIsFold(sn.spec, start, older);
    ReplaySplits(sn.spec, start, middle, older, newer);
  }

  // ---- What a load replays -----------------------------------------------------------

  /** The snapshot counts: it is there and not newer than the entity. */
  predicate Usable(e: EntityState, snap: Option<SnapshotRecord>)
  {
    snap.Some? && snap.value.version <= e.version
  }

  /** The snapshot version a load leaves behind, from which the next threshold counts. */
  function UsedVersion(e: EntityState, snap: Option<SnapshotRecord>): nat
  {
    if Usable(e, snap) then snap.value.version else e.snapshotVersion
  }

  /** The events a load replays: those past a usable snapshot, or all. */
  function Replays(e: EntityState, snap: Option<SnapshotRecord>): seq<EventRecord>
    requires e.Valid()
  {
    if Usable(e, snap) then e.events[snap.value.version..] else e.events
  }

  /** Where the replay starts: what the snapshot restores, whatever that is, or the default.
      A usable snapshot that does not decode gives nothing. */
  function StartOf<S>(sn: Snapshottable<S>, e: EntityState, snap: Option<SnapshotRecord>): Option<Domain<S>>
  {
    if Usable(e, snap) then sn.restore(snap.value.data) else Some(Domain(e.id, sn.spec.init))
  }

  /** A load uses its snapshot: it is the fold of exactly the events past a usable snapshot,
      from what that snapshot restores, and remembers its version. Snapshots that do not
      decode and events without an arm are errors. */
  lemma LoadReplays<S>(sn: Snapshottable<S>, e: EntityState, snap: Option<SnapshotRecord>)
    requires e.Valid() && Numbered(e.events)
    ensures HydratedWithOptionalSnapshot(sn, e, snap) ==
      match StartOf(sn, e, snap)
      case None => Err(Replay("snapshot deserialize"))
      case Some(d) =>
        var events := UpcastEvents(sn.spec.upcasters, Replays(e, snap));
        var end := Fold(sn.spec, d, events);
        if AllArms(sn.spec, events) then
          Ok(Aggregate(e.(snapshotVersion := UsedVersion(e, snap), id := end.id, replaying := false), end.state, []))
        else Err(Replay(events[FirstUnknown(sn.spec, events)].name))
  {
    if Usable(e, snap) {
      AfterIsSuffix(snap.value.version, e.events);
      if sn.restore(snap.value.data).Some? {
        var d := sn.restore(snap.value.data).value;
        var start := Aggregate(e.(snapshotVersion := snap.value.version, id := d.id, replaying := true), d.state, []);
        ReplayIsFold(sn.spec, start, UpcastEvents(sn.spec.upcasters, Replays(e, snap)));
      }
    } else {
      HydrateIsFold(sn.spec, e);
    }
  }

  /** The snapshot a faithful, fully committed aggregate takes of itself fits its log. */
  lemma OwnSnapshotFits<S>(sn: Snapshottable<S>, a: Aggregate<S>, log: seq<EventRecord>)
    requires Faithful(sn.spec, a) && a.entity.Valid() && a.entity.events <= log
    ensures Fits(sn, a.entity.id, log, SnapshotOf(sn, a))
  {
    assert log[..|a.entity.events|] == a.entity.events;
  }

  lemma GrowthKeepsFit<S>(sn: Snapshottable<S>, id: string, log: seq<EventRecord>, log': seq<EventRecord>, snap: SnapshotRecord)
    requires Fits(sn, id, log, snap) && log <= log'
    ensures Fits(sn, id, log', snap)
  {
    assert log'[..snap.version] == log[..snap.version];
  }

  lemma FitsShorter<S>(sn: Snapshottable<S>, id: string, log: seq<EventRecord>, older: seq<EventRecord>, snap: SnapshotRecord)
    requires Fits(sn, id, log, snap) && older <= log && snap.version <= |older|
    ensures Fits(sn, id, older, snap)
  {
    assert older[..snap.version] == log[..snap.version];
  }

  // ---- The repository ----------------------------------------------------------------

  method HydrateFromSnapshot<S>(sn: Snapshottable<S>, entity: Entity, snap: SnapshotRecord)
    returns (result: Result<AggregateRoot<S>, RepositoryError>)
    requires forall i :: 0 <= i < |entity.events| ==> Terminates(sn.spec.upcasters, entity.events[i])
    modifies entity
    ensures match HydratedFromSnapshot(sn, old(entity.Value()), snap)
      case Ok(a) => result.Ok? && fresh(result.value) && result.value.spec == sn.spec
        && result.value.entity == entity && result.value.Value() == a
      case Err(error) => result == Err(error)
  {
    ghost var e := entity.Value();
    var agg := new AggregateRoot(sn.spec, entity);
    entity.SetSnapshotVersion(snap.version);
    var restored := sn.restore(snap.data);
    if restored.None? {
      return Err(Replay("snapshot deserialize"));
    }
    entity.SetId(restored.value.id);
    agg.state := restored.value.state;
    var post := [];
    for i := 0 to |entity.events|
      invariant entity.Value() == e.(snapshotVersion := snap.version, id := restored.value.id)
      invariant post == EventsAfter(snap.version, e.events[..i])
      invariant forall j :: 0 <= j < |post| ==> Terminates(sn.spec.upcasters, post[j])
    {
      assert e.events[..i + 1][..i] == e.events[..i];
      if entity.events[i].sequence > snap.version {
        post := post + [entity.events[i]];
      }
    }
    assert e.events[..|e.events|] == e.events;
    var events := UpcastAll(post, sn.spec.upcasters);
    var replayed := agg.ReplayInOrder(events);
    if replayed.Err? {
      return Err(replayed.error);
    }
    result := Ok(agg);
  }

  class SnapshotRepository<S> {
    const sn: Snapshottable<S>
    const repo: HashMapRepository
    const frequency: nat
    var snapshots: SnapshotStore

    constructor (sn: Snapshottable<S>, repo: HashMapRepository, frequency: nat)
      ensures this.sn == sn && this.repo == repo && this.frequency == frequency && snapshots == map[]
    {
      this.sn, this.repo, this.frequency, snapshots := sn, repo, frequency, map[];
    }

    method Get(id: string) returns (result: Result<Option<AggregateRoot<S>>, RepositoryError>)
      requires id in repo.eventStore ==>
        forall i :: 0 <= i < |repo.eventStore[id]| ==> Terminates(sn.spec.upcasters, repo.eventStore[id][i])
      ensures id !in repo.eventStore ==> result == Ok(None)
      ensures id in repo.eventStore ==>
        var snap := if id in snapshots then Some(snapshots[id]) else None;
        match HydratedWithOptionalSnapshot(sn, Loaded(id, repo.eventStore[id]), snap)
        case Ok(a) => result.Ok? && result.value.Some? && fresh(result.value.value) && result.value.value.Value() == a
        case Err(error) => result == Err(error)
    {
      var found := repo.GetOne(id);
      if found.None? {
        return Ok(None);
      }
      var entity := found.value;
      var agg;
      if id in snapshots && snapshots[id].version <= entity.version {
        agg := HydrateFromSnapshot(sn, entity, snapshots[id]);
      } else {
        agg := Hydrate(sn.spec, entity);
      }
      match agg {
        case Ok(a) => result := Ok(Some(a));
        case Err(error) => result := Err(error);
      }
    }

    method MaybeSnapshot(aggregate: AggregateRoot<S>)
      modifies this, aggregate.entity
      ensures var a := old(aggregate.Value());
        && aggregate.entity == old(aggregate.entity)
        && (if SnapshotDue(a, frequency) then
              && snapshots == old(snapshots)[a.entity.id := SnapshotOf(sn, a)]
              && aggregate.Value() == a.(entity := a.entity.(snapshotVersion := a.entity.version))
            else snapshots == old(snapshots) && aggregate.Value() == a)
    {
      var entity := aggregate.entity;
      var version := entity.version;
      if version >= entity.snapshotVersion + frequency {
        var data := sn.create(Domain(entity.id, aggregate.state));
        snapshots := snapshots[entity.id := SnapshotRecord(entity.id, version, data)];
        entity.SetSnapshotVersion(version);
      }
    }

    /** Commit, and only after a successful commit look at the snapshot threshold. */
    method Commit(aggregate: AggregateRoot<S>) returns (result: Result<(), RepositoryError>)
      requires aggregate.entity.Valid()
      modifies this, repo, aggregate.entity
      ensures var a := old(aggregate.Value());
        var outcome := AfterCommit(old(repo.eventStore), [a.entity]);
        && aggregate.entity == old(aggregate.entity)
        && result == outcome.result
        && repo.eventStore == outcome.store
        && (result.Err? ==> snapshots == old(snapshots) && aggregate.Value() == a)
        && (result.Ok? ==>
              var saved := a.(entity := MarkedCommitted(a.entity));
              if SnapshotDue(saved, frequency) then
                && snapshots == old(snapshots)[a.entity.id := SnapshotOf(sn, saved)]
                && aggregate.Value() == saved.(entity := saved.entity.(snapshotVersion := a.entity.version))
              else snapshots == old(snapshots) && aggregate.Value() == saved)
    {
      result := CommitOne(aggregate.entity, aggregate.entity.Value());
      if result.Ok? {
        MaybeSnapshot(aggregate);
      }
    }

    /** The commit of a single entity. */
    method CommitOne(entity: Entity, ghost before: EntityState) returns (result: Result<(), RepositoryError>)
      requires entity.Value() == before && before.Valid()
      modifies repo, entity
      ensures result == AfterCommit(old(repo.eventStore), [before]).result
      ensures repo.eventStore == AfterCommit(old(repo.eventStore), [before]).store
      ensures entity.Value() == if result.Ok? then MarkedCommitted(before) else before
    {
      assert Values([entity]) == [before];
      result := repo.Commit([entity]);
      assert Values([entity])[0] == entity.Value();
    }

    /** The same commit together with an outbox message's entity. */
    method CommitWithOutbox(aggregate: AggregateRoot<S>, outbox: Entity) returns (result: Result<(), RepositoryError>)
      requires aggregate.entity.Valid() && outbox.Valid() && outbox != aggregate.entity
      modifies this, repo, aggregate.entity, outbox
      ensures var a := old(aggregate.Value());
        var outcome := AfterCommit(old(repo.eventStore), [a.entity, old(outbox.Value())]);
        && aggregate.entity == old(aggregate.entity)
        && result == outcome.result
        && repo.eventStore == outcome.store
        && (result.Err? ==> snapshots == old(snapshots) && aggregate.Value() == a && outbox.Value() == old(outbox.Value()))
        && (result.Ok? ==>
              var saved := a.(entity := MarkedCommitted(a.entity));
              && outbox.Value() == MarkedCommitted(old(outbox.Value()))
              && if SnapshotDue(saved, frequency) then
                && snapshots == old(snapshots)[a.entity.id := SnapshotOf(sn, saved)]
                && aggregate.Value() == saved.(entity := saved.entity.(snapshotVersion := a.entity.version))
              else snapshots == old(snapshots) && aggregate.Value() == saved)
    {
      var entities := [aggregate.entity, outbox];
      ghost var before := [aggregate.entity.Value(), outbox.Value()];
      assert Values(entities) == before;
      result := repo.Commit(entities);
      assert Values(entities)[0] == aggregate.entity.Value() && Values(entities)[1] == outbox.Value();
      if result.Err? {
        return;
      }
      MaybeSnapshot(aggregate);
    }

    method DeleteSnapshot(id: string) returns (existed: bool)
      modifies this
      ensures existed == (id in old(snapshots)) && snapshots == old(snapshots) - {id}
    {
      existed := id in snapshots;
      snapshots := snapshots - {id};
    }
  }
}
