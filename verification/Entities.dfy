/** Event records (src/entity/event_record.rs). A payload is the tuple of command
    arguments before it is turned into bytes; wall-clock timestamps are left out. */
module Events {
  import opened Basics

  newtype byte = x: int | 0 <= x < 256

  datatype Field =
    | Text(text: string)
    | Number(number: nat)
    | Blob(bytes: seq<byte>)
    | MaybeText(maybe: Option<string>)
    | Dictionary(entries: map<string, string>)

  type Payload = seq<Field>

  datatype EventRecord = EventRecord(
    name: string,
    payload: Payload,
    version: nat,
    sequence: nat,
    metadata: map<string, string>)

  /** The sequence numbers of `log` are `base + 1`, `base + 2`, ... */
  predicate NumberedFrom(base: nat, log: seq<EventRecord>)
  {
    forall i :: 0 <= i < |log| ==> log[i].sequence == base + i + 1
  }

  predicate Numbered(log: seq<EventRecord>)
  {
    NumberedFrom(0, log)
  }
}

/** The event buffer every aggregate embeds (src/entity/entity.rs). */
module Entities {
  import opened Events

  /** The fields of an entity as a value. */
  datatype EntityState = EntityState(
    id: string,
    version: nat,
    events: seq<EventRecord>,
    replaying: bool,
    snapshotVersion: nat,
    committedVersion: nat,
    metadata: map<string, string>)
  {
    /** `version` always counts the events and the committed ones are a prefix of them. */
    predicate Valid()
    {
      version == |events| && committedVersion <= |events|
    }

    /** Events added since the entity was loaded. */
    function NewEvents(): seq<EventRecord>
      requires Valid()
    {
      events[committedVersion..]
    }
  }

  type ValidEntity = e: EntityState | e.Valid()
    witness EntityState("", 0, [], false, 0, 0, map[])

  function Blank(id: string): ValidEntity
  {
    EntityState(id, 0, [], false, 0, 0, map[])
  }

  function Loaded(id: string, history: seq<EventRecord>): ValidEntity
  {
    EntityState(id, |history|, history, false, 0, |history|, map[])
  }

  /** Recording an event does nothing while the entity is replaying. */
  function Digested(e: EntityState, name: string, version: nat, payload: Payload): EntityState
  {
    if e.replaying then e
    else
      var record := EventRecord(name, payload, version, |e.events| + 1, e.metadata);
      e.(events := e.events + [record], version := |e.events| + 1)
  }

  function MarkedCommitted(e: EntityState): EntityState
  {
    e.(committedVersion := e.version)
  }

  /** Recording keeps an entity valid and its log numbered, and only ever adds to the
      events that a commit will append. */
  lemma DigestExtendsNewEvents(e: EntityState, name: string, version: nat, payload: Payload)
    requires e.Valid()
    ensures var d := Digested(e, name, version, payload);
      && d.Valid()
      && (Numbered(e.events) ==> Numbered(d.events))
      && d.committedVersion == e.committedVersion
      && e.events <= d.events
      && d.NewEvents() == e.NewEvents() + d.events[|e.events|..]
      && (if e.replaying then d == e else |d.NewEvents()| == |e.NewEvents()| + 1)
  {
    var d := Digested(e, name, version, payload);
    assert d.events[d.committedVersion..] == e.events[e.committedVersion..] + d.events[|e.events|..];
  }

  class Entity {
    var id: string
    var version: nat
    var events: seq<EventRecord>
    var replaying: bool
    var snapshotVersion: nat
    var committedVersion: nat
    var metadata: map<string, string>

    function Value(): EntityState
      reads this
    {
      EntityState(id, version, events, replaying, snapshotVersion, committedVersion, metadata)
    }

    ghost predicate Valid()
      reads this
    {
      Value().Valid()
    }

    constructor ()
      ensures Value() == Blank("")
    {
      id, version, events, replaying := "", 0, [], false;
      snapshotVersion, committedVersion, metadata := 0, 0, map[];
    }

    constructor WithId(newId: string)
      ensures Value() == Blank(newId)
    {
      id, version, events, replaying := newId, 0, [], false;
      snapshotVersion, committedVersion, metadata := 0, 0, map[];
    }

    method SetId(newId: string)
      modifies this`id
      ensures Value() == old(Value()).(id := newId)
    {
      id := newId;
    }

    method SetMeta(key: string, value: string)
      modifies this`metadata
      ensures Value() == old(Value()).(metadata := old(metadata)[key := value])
    {
      metadata := metadata[key := value];
    }

    method SetSnapshotVersion(v: nat)
      modifies this`snapshotVersion
      ensures Value() == old(Value()).(snapshotVersion := v)
    {
      snapshotVersion := v;
    }

    method SetReplaying(flag: bool)
      modifies this`replaying
      ensures Value() == old(Value()).(replaying := flag)
    {
      replaying := flag;
    }

    method DigestV(name: string, eventVersion: nat, payload: Payload)
      modifies this
      ensures Value() == Digested(old(Value()), name, eventVersion, payload)
    {
      if replaying {
        return;
      }
      var sequence := |events| + 1;
      var record := EventRecord(name, payload, eventVersion, sequence, map[]);
      if metadata != map[] {
        record := record.(metadata := metadata);
      }
      events := events + [record];
      version := |events|;
    }

    /** Events recorded without an explicit version are version 1. */
    method Digest(name: string, payload: Payload)
      modifies this
      ensures Value() == Digested(old(Value()), name, 1, payload)
    {
      DigestV(name, 1, payload);
    }

    method LoadFromHistory(history: seq<EventRecord>)
      modifies this
      ensures Value() == old(Value()).(events := history, version := |history|, committedVersion := |history|)
    {
      events := history;
      version := |events|;
      committedVersion := version;
    }

    method NewEvents() returns (pending: seq<EventRecord>)
      requires Valid()
      ensures pending == Value().NewEvents()
      ensures events == events[..committedVersion] + pending
    {
      pending := events[committedVersion..];
    }

    method MarkCommitted()
      modifies this`committedVersion
      ensures Value() == MarkedCommitted(old(Value()))
    {
      committedVersion := version;
    }
  }
}
