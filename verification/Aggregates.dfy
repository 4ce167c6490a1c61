/** Event-sourced aggregates: what the generated command methods and replay arms mean
    (sourced_rust_macros/src/lib.rs) and how `hydrate` rebuilds one from its events
    (src/aggregate/aggregate.rs). */
module Aggregates {
  import opened Basics
  import opened Events
  import opened Entities
  import opened EventStore
  import opened Upcasting

  /** An aggregate type. Its commands are named after the events they record; a command
      is `if guard { enqueue; digest; body }`, and replay calls the same command with the
      arguments decoded from the payload. */
  datatype Spec<!S> = Spec(
    init: S,
    arm: (string, Payload) -> bool,               // replay knows the event and its payload decodes
    guard: (S, string, Payload) -> bool,
    body: (S, string, Payload) -> S,
    newId: (string, Payload) -> Option<string>,   // the `set_id` call of a body, if any
    eventVersion: string -> nat,
    upcasters: seq<Upcaster>)

  datatype Message = Message(name: string, args: Payload)

  datatype Aggregate<S> = Aggregate(entity: EntityState, state: S, queue: seq<Message>)

  function New<S>(spec: Spec<S>): Aggregate<S>
  {
    Aggregate(Blank(""), spec.init, [])
  }

  /** One command call, live or during replay. */
  function Invoked<S>(spec: Spec<S>, a: Aggregate<S>, name: string, args: Payload): Aggregate<S>
  {
    if !spec.guard(a.state, name, args) then a
    else
      var queue := if a.entity.replaying then a.queue else a.queue + [Message(name, args)];
      var entity := Digested(a.entity, name, spec.eventVersion(name), args);
      var renamed := match spec.newId(name, args) case Some(id) => entity.(id := id) case None => entity;
      Aggregate(renamed, spec.body(a.state, name, args), queue)
  }

  function Replayed<S>(spec: Spec<S>, a: Aggregate<S>, event: EventRecord): Result<Aggregate<S>, RepositoryError>
  {
    if spec.arm(event.name, event.payload) then Ok(Invoked(spec, a, event.name, event.payload))
    else Err(Replay(event.name))
  }

  function ReplayedAll<S>(spec: Spec<S>, a: Aggregate<S>, events: seq<EventRecord>): Result<Aggregate<S>, RepositoryError>
  {
    if events == [] then Ok(a)
    else
      match ReplayedAll(spec, a, events[..|events| - 1])
      case Ok(b) => Replayed(spec, b, events[|events| - 1])
      case Err(error) => Err(error)
  }

  function SetReplaying<S>(a: Aggregate<S>, flag: bool): Aggregate<S>
  {
    a.(entity := a.entity.(replaying := flag))
  }

  function StopReplaying<S>(r: Result<Aggregate<S>, RepositoryError>): Result<Aggregate<S>, RepositoryError>
  {
    match r
    case Ok(a) => Ok(SetReplaying(a, false))
    case Err(error) => Err(error)
  }

  function Hydrated<S>(spec: Spec<S>, entity: EntityState): Result<Aggregate<S>, RepositoryError>
  {
    var blank := SetReplaying(New(spec).(entity := entity), true);
    StopReplaying(ReplayedAll(spec, blank, UpcastEvents(spec.upcasters, entity.events)))
  }

  // ---- The meaning of a log ----------------------------------------------------------

  /** What a replay can change: the id and the domain state. */
  datatype Domain<S> = Domain(id: string, state: S)

  function Step<S>(spec: Spec<S>, d: Domain<S>, name: string, args: Payload): Domain<S>
  {
    if !spec.guard(d.state, name, args) then d
    else Domain(match spec.newId(name, args) case Some(id) => id case None => d.id, spec.body(d.state, name, args))
  }

  function Fold<S>(spec: Spec<S>, d: Domain<S>, events: seq<EventRecord>): Domain<S>
  {
    if events == [] then d
    else
      var last := events[|events| - 1];
      Step(spec, Fold(spec, d, events[..|events| - 1]), last.name, last.payload)
  }

  predicate AllArms<S>(spec: Spec<S>, events: seq<EventRecord>)
  {
    forall i :: 0 <= i < |events| ==> spec.arm(events[i].name, events[i].payload)
  }

  /** Index of the first event replay cannot handle, or the length. */
  function FirstUnknown<S>(spec: Spec<S>, events: seq<EventRecord>): (i: nat)
    ensures i <= |events|
    ensures i < |events| ==> !spec.arm(events[i].name, events[i].payload)
    ensures forall j :: 0 <= j < i ==> spec.arm(events[j].name, events[j].payload)
  {
    if events == [] then 0
    else
      var last := events[|events| - 1];
      var i := FirstUnknown(spec, events[..|events| - 1]);
      if i < |events| - 1 || !spec.arm(last.name, last.payload) then i else |events|
  }

  lemma {:induction false} FoldConcat<S>(spec: Spec<S>, d: Domain<S>, a: seq<EventRecord>, b: seq<EventRecord>)
    ensures Fold(spec, d, a + b) == Fold(spec, Fold(spec, d, a), b)
  {
    if b == [] {
      assert a + b == a;
    } else {
      var front := b[..|b| - 1];
      assert (a + b)[..|a + b| - 1] == a + front;
      FoldConcat(spec, d, a, front);
    }
  }

  /** The starting id only shows in the result when no event sets one. */
  lemma {:induction false} FoldIgnoresStartId<S>(spec: Spec<S>, x: string, y: string, s: S, events: seq<EventRecord>)
    ensures var fx, fy := Fold(spec, Domain(x, s), events), Fold(spec, Domain(y, s), events);
      fx.state == fy.state && (fx.id == fy.id || (fx.id == x && fy.id == y))
  {
    if events != [] {
      FoldIgnoresStartId(spec, x, y, s, events[..|events| - 1]);
    }
  }

  /** While the flag is set, replaying records nothing, enqueues nothing and touches only
      the id and the state; it stops at the first event it does not know. */
  lemma {:induction false} ReplayIsFold<S>(spec: Spec<S>, a: Aggregate<S>, events: seq<EventRecord>)
    requires a.entity.replaying
    ensures ReplayedAll(spec, a, events) ==
      if AllArms(spec, events) then
        var d := Fold(spec, Domain(a.entity.id, a.state), events);
        Ok(Aggregate(a.entity.(id := d.id), d.state, a.queue))
      else Err(Replay(events[FirstUnknown(spec, events)].name))
  {
    if events != [] {
      var front := events[..|events| - 1];
      ReplayIsFold(spec, a, front);
      assert AllArms(spec, events) ==> AllArms(spec, front);
      if !AllArms(spec, front) {
        assert !AllArms(spec, events) by {
          var i := FirstUnknown(spec, front);
          assert !spec.arm(events[i].name, events[i].payload);
        }
      }
    }
  }

  /** Hydration is the guarded fold of the upcast log; the entity comes back with its
      events, versions and metadata untouched, the flag cleared and nothing enqueued. */
  lemma HydrateIsFold<S>(spec: Spec<S>, e: EntityState)
    ensures var events := UpcastEvents(spec.upcasters, e.events);
      var d := Fold(spec, Domain(e.id, spec.init), events);
      Hydrated(spec, e) ==
        if AllArms(spec, events) then Ok(Aggregate(e.(id := d.id, replaying := false), d.state, []))
        else Err(Replay(events[FirstUnknown(spec, events)].name))
  {
    ReplayIsFold(spec, SetReplaying(New(spec).(entity := e), true), UpcastEvents(spec.upcasters, e.events));
  }

  // ---- Record, then replay -----------------------------------------------------------

  /** The events an aggregate type records are at their newest version. */
  ghost predicate RecordsCurrentVersions<S>(spec: Spec<S>)
  {
    forall name, args :: spec.arm(name, args) ==>
      FirstHandlerFrom(spec.upcasters, name, spec.eventVersion(name), 0) == |spec.upcasters|
  }

  /** The live id and state are what replaying the aggregate's own events gives. */
  ghost predicate Faithful<S>(spec: Spec<S>, a: Aggregate<S>)
  {
    var events := UpcastEvents(spec.upcasters, a.entity.events);
    && !a.entity.replaying
    && AllArms(spec, events)
    && Fold(spec, Domain(a.entity.id, spec.init), events) == Domain(a.entity.id, a.state)
  }

  /** Every guard is true again when the log is replayed. */
  ghost predicate GuardsPass<S>(spec: Spec<S>, d: Domain<S>, events: seq<EventRecord>)
  {
    events == [] ||
    (var front, last := events[..|events| - 1], events[|events| - 1];
     GuardsPass(spec, d, front) && spec.guard(Fold(spec, d, front).state, last.name, last.payload))
  }

  lemma RecordedEventIsFinal<S>(spec: Spec<S>, a: Aggregate<S>, name: string, args: Payload)
    requires RecordsCurrentVersions(spec) && spec.arm(name, args)
    requires !a.entity.replaying && spec.guard(a.state, name, args)
    ensures var b := Invoked(spec, a, name, args);
      && |b.entity.events| == |a.entity.events| + 1
      && var recorded := b.entity.events[|a.entity.events|];
        && recorded.name == name && recorded.payload == args
        && UpcastEvents(spec.upcasters, b.entity.events) == UpcastEvents(spec.upcasters, a.entity.events) + [recorded]
  {
    var b := Invoked(spec, a, name, args);
    var recorded := b.entity.events[|a.entity.events|];
    FinalStays(spec.upcasters, recorded, |spec.upcasters|);
    UpcastEventsConcat(spec.upcasters, a.entity.events, [recorded]);
    assert b.entity.events == a.entity.events + [recorded];
  }

  lemma InvokeKeepsFaithful<S>(spec: Spec<S>, a: Aggregate<S>, name: string, args: Payload)
    requires RecordsCurrentVersions(spec) && spec.arm(name, args) && Faithful(spec, a)
    ensures Faithful(spec, Invoked(spec, a, name, args))
  {
    if spec.guard(a.state, name, args) {
      var b := Invoked(spec, a, name, args);
      RecordedEventIsFinal(spec, a, name, args);
      var before, after := UpcastEvents(spec.upcasters, a.entity.events), UpcastEvents(spec.upcasters, b.entity.events);
      assert after[..|after| - 1] == before;
      FoldIgnoresStartId(spec, a.entity.id, b.entity.id, spec.init, before);
    }
  }

  /** A hydrated aggregate is again faithful, so recording can go on from there. */
  lemma HydrateIsFaithful<S>(spec: Spec<S>, id: string, log: seq<EventRecord>)
    requires Hydrated(spec, Loaded(id, log)).Ok?
    ensures Faithful(spec, Hydrated(spec, Loaded(id, log)).value)
  {
    HydrateIsFold(spec, Loaded(id, log));
    var h := Hydrated(spec, Loaded(id, log)).value;
    FoldIgnoresStartId(spec, id, h.entity.id, spec.init, UpcastEvents(spec.upcasters, log));
  }

  lemma FaithfulHydratesBack<S>(spec: Spec<S>, a: Aggregate<S>)
    requires Faithful(spec, a)
    ensures var stored := Loaded(a.entity.id, a.entity.events);
      Hydrated(spec, stored) == Ok(Aggregate(stored, a.state, []))
  {
    HydrateIsFold(spec, Loaded(a.entity.id, a.entity.events));
  }

  datatype Call =
    | Command(name: string, args: Payload)
    | SetMeta(key: string, value: string)
    | Saved

  function Called<S>(spec: Spec<S>, a: Aggregate<S>, call: Call): Aggregate<S>
  {
    match call
    case Command(name, args) => Invoked(spec, a, name, args)
    case SetMeta(key, value) => a.(entity := a.entity.(metadata := a.entity.metadata[key := value]))
    case Saved => a.(entity := MarkedCommitted(a.entity))
  }

  function CalledAll<S>(spec: Spec<S>, a: Aggregate<S>, calls: seq<Call>): Aggregate<S>
  {
    if calls == [] then a else Called(spec, CalledAll(spec, a, calls[..|calls| - 1]), calls[|calls| - 1])
  }

  /** Outside replay the flag is never set. */
  lemma {:induction false} NeverReplaying<S>(spec: Spec<S>, calls: seq<Call>)
    ensures !CalledAll(spec, New(spec), calls).entity.replaying
  {
    if calls != [] {
      NeverReplaying(spec, calls[..|calls| - 1]);
    }
  }

  /** The calls that make some commands, given by their own type, live. */
  function Encoded<C>(encode: C -> Call, cs: seq<C>): seq<Call>
  {
    seq(|cs|, i requires 0 <= i < |cs| => encode(cs[i]))
  }

  /** A new aggregate after a sequence of live commands. */
  function PerformedAll<S, C>(spec: Spec<S>, encode: C -> Call, cs: seq<C>): Aggregate<S>
  {
    CalledAll(spec, New(spec), Encoded(encode, cs))
  }

  lemma PerformedSnoc<S, C>(spec: Spec<S>, encode: C -> Call, cs: seq<C>, c: C)
    ensures PerformedAll(spec, encode, cs + [c]) == Called(spec, PerformedAll(spec, encode, cs), encode(c))
  {
    assert Encoded(encode, cs + [c])[..|cs|] == Encoded(encode, cs);
  }

  /** Commands that an aggregate refuses, made one after the other, leave it as it is. */
  lemma {:induction false} RefusedCommandsChangeNothing<S, C>(spec: Spec<S>, encode: C -> Call, cs: seq<C>, more: seq<C>)
    requires var a := PerformedAll(spec, encode, cs);
      forall i :: 0 <= i < |more| ==> Called(spec, a, encode(more[i])) == a
    ensures PerformedAll(spec, encode, cs + more) == PerformedAll(spec, encode, cs)
  {
    if more == [] {
      assert cs + more == cs;
    } else {
      var front, last := more[..|more| - 1], more[|more| - 1];
      RefusedCommandsChangeNothing(spec, encode, cs, front);
      assert cs + more == cs + front + [last];
      PerformedSnoc(spec, encode, cs + front, last);
    }
  }

  /** Replay has an arm for the event of the call. */
  predicate Knows<S>(spec: Spec<S>, call: Call)
  {
    call.Command? ==> spec.arm(call.name, call.args)
  }

  predicate WellTyped<S>(spec: Spec<S>, calls: seq<Call>)
  {
    forall i :: 0 <= i < |calls| ==> Knows(spec, calls[i])
  }

  lemma EncodedIsWellTyped<S, C>(spec: Spec<S>, encode: C -> Call, cs: seq<C>)
    requires forall i :: 0 <= i < |cs| ==> Knows(spec, encode(cs[i]))
    ensures WellTyped(spec, Encoded(encode, cs))
  {
  }

  /** Record/replay round trip: after any sequence of guarded commands, changes of the
      metadata context and saves, hydrating the recorded log under the aggregate's id
      gives back its id and domain state, with an empty emitter queue; every guard is true
      again, and each command left exactly one event or none. */
  lemma RecordReplayRoundTrip<S>(spec: Spec<S>, calls: seq<Call>)
    requires RecordsCurrentVersions(spec) && WellTyped(spec, calls)
    ensures var a := CalledAll(spec, New(spec), calls);
      var stored := Loaded(a.entity.id, a.entity.events);
      && Hydrated(spec, stored) == Ok(Aggregate(stored, a.state, []))
      && GuardsPass(spec, Domain(a.entity.id, spec.init), a.entity.events)
      && |a.queue| == |a.entity.events|
      && forall i :: 0 <= i < |a.queue| ==> a.queue[i] == Message(a.entity.events[i].name, a.entity.events[i].payload)
  {
    CallsKeepRecord(spec, calls);
    FaithfulHydratesBack(spec, CalledAll(spec, New(spec), calls));
  }

  /** The log is a faithful record whose guards pass and which mirrors the queue. */
  ghost predicate Recorded<S>(spec: Spec<S>, a: Aggregate<S>)
  {
    && Faithful(spec, a)
    && UpcastEvents(spec.upcasters, a.entity.events) == a.entity.events
    && GuardsPass(spec, Domain(a.entity.id, spec.init), a.entity.events)
    && |a.queue| == |a.entity.events|
    && forall i :: 0 <= i < |a.queue| ==> a.queue[i] == Message(a.entity.events[i].name, a.entity.events[i].payload)
  }

  lemma {:induction false} GuardsIgnoreStartId<S>(spec: Spec<S>, x: string, y: string, s: S, events: seq<EventRecord>)
    requires GuardsPass(spec, Domain(x, s), events)
    ensures GuardsPass(spec, Domain(y, s), events)
  {
    if events != [] {
      GuardsIgnoreStartId(spec, x, y, s, events[..|events| - 1]);
      FoldIgnoresStartId(spec, x, y, s, events[..|events| - 1]);
    }
  }

  lemma InvokeKeepsRecord<S>(spec: Spec<S>, a: Aggregate<S>, name: string, args: Payload)
    requires RecordsCurrentVersions(spec) && spec.arm(name, args) && Recorded(spec, a)
    ensures Recorded(spec, Invoked(spec, a, name, args))
  {
    InvokeKeepsFaithful(spec, a, name, args);
    if spec.guard(a.state, name, args) {
      RecordedEventIsFinal(spec, a, name, args);
      var b := Invoked(spec, a, name, args);
      GuardsIgnoreStartId(spec, a.entity.id, b.entity.id, spec.init, a.entity.events);
      FoldIgnoresStartId(spec, a.entity.id, b.entity.id, spec.init, a.entity.events);
      assert b.entity.events[..|b.entity.events| - 1] == a.entity.events;
    }
  }

  lemma {:induction false} CallsKeepRecord<S>(spec: Spec<S>, calls: seq<Call>)
    requires RecordsCurrentVersions(spec) && WellTyped(spec, calls)
    ensures Recorded(spec, CalledAll(spec, New(spec), calls))
  {
    if calls != [] {
      var front, last := calls[..|calls| - 1], calls[|calls| - 1];
      CallsKeepRecord(spec, front);
      if last.Command? {
        InvokeKeepsRecord(spec, CalledAll(spec, New(spec), front), last.name, last.args);
      }
    }
  }

  // ---- The metadata of events --------------------------------------------------------

  /** The metadata context that a sequence of calls has set up. */
  function MetaAfter(calls: seq<Call>): map<string, string>
  {
    if calls == [] then map[]
    else
      var before, last := MetaAfter(calls[..|calls| - 1]), calls[|calls| - 1];
      if last.SetMeta? then before[last.key := last.value] else before
  }

  lemma {:induction false} ContextIsMetaAfter<S>(spec: Spec<S>, calls: seq<Call>)
    ensures CalledAll(spec, New(spec), calls).entity.metadata == MetaAfter(calls)
  {
    if calls != [] {
      ContextIsMetaAfter(spec, calls[..|calls| - 1]);
    }
  }

  /** What a command records: its name, arguments and version, the next sequence number, and
      the metadata set before it; nothing when its guard refuses it. */
  lemma RecordedEvent<S>(spec: Spec<S>, calls: seq<Call>, name: string, args: Payload)
    ensures var a, b := CalledAll(spec, New(spec), calls), CalledAll(spec, New(spec), calls + [Command(name, args)]);
      b.entity.events == a.entity.events +
        if spec.guard(a.state, name, args)
        then [EventRecord(name, args, spec.eventVersion(name), |a.entity.events| + 1, MetaAfter(calls))]
        else []
  {
    assert (calls + [Command(name, args)])[..|calls|] == calls;
    NeverReplaying(spec, calls);
    ContextIsMetaAfter(spec, calls);
  }

  // ---- The aggregate as an object ----------------------------------------------------

  class AggregateRoot<S> {
    const spec: Spec<S>
    var entity: Entity
    var state: S
    var queue: seq<Message>

    function Value(): Aggregate<S>
      reads this, entity
    {
      Aggregate(entity.Value(), state, queue)
    }

    /** The default aggregate around a given entity. */
    constructor (spec: Spec<S>, entity: Entity)
      ensures this.spec == spec && this.entity == entity
      ensures Value() == New(spec).(entity := entity.Value())
    {
      this.spec, this.entity := spec, entity;
      state, queue := spec.init, [];
    }

    method Invoke(name: string, args: Payload)
      modifies this, entity
      ensures entity == old(entity)
      ensures Value() == Invoked(spec, old(Value()), name, args)
    {
      if spec.guard(state, name, args) {
        if !entity.replaying {
          queue := queue + [Message(name, args)];
        }
        entity.DigestV(name, spec.eventVersion(name), args);
        var id := spec.newId(name, args);
        if id.Some? {
          entity.SetId(id.value);
        }
        state := spec.body(state, name, args);
      }
    }

    method ReplayEvent(event: EventRecord) returns (result: Result<(), RepositoryError>)
      modifies this, entity
      ensures entity == old(entity)
      ensures match Replayed(spec, old(Value()), event)
        case Ok(a) => result == Ok(()) && Value() == a
        case Err(error) => result == Err(error) && Value() == old(Value())
    {
      if !spec.arm(event.name, event.payload) {
        return Err(Replay(event.name));
      }
      Invoke(event.name, event.payload);
      result := Ok(());
    }

    /** Set the flag, replay the events in order, and clear the flag however it ends. */
    method ReplayInOrder(events: seq<EventRecord>) returns (result: Result<(), RepositoryError>)
      modifies this, entity
      ensures entity == old(entity) && !entity.replaying
      ensures match ReplayedAll(spec, SetReplaying(old(Value()), true), events)
        case Ok(a) => result == Ok(()) && Value() == SetReplaying(a, false)
        case Err(error) => result == Err(error)
    {
      entity.SetReplaying(true);
      ghost var start := Value();
      for i := 0 to |events|
        invariant entity == old(entity)
        invariant ReplayedAll(spec, start, events[..i]) == Ok(Value())
      {
        assert events[..i + 1][..i] == events[..i];
        var replayed := ReplayEvent(events[i]);
        if replayed.Err? {
          entity.SetReplaying(false);
          ReplayStopsAt(spec, start, events, i + 1);
          return replayed;
        }
      }
      assert events[..|events|] == events;
      entity.SetReplaying(false);
      result := Ok(());
    }
  }

  lemma {:induction false} ReplayStopsAt<S>(spec: Spec<S>, a: Aggregate<S>, events: seq<EventRecord>, n: nat)
    requires n <= |events| && ReplayedAll(spec, a, events[..n]).Err?
    ensures ReplayedAll(spec, a, events) == ReplayedAll(spec, a, events[..n])
    decreases |events|
  {
    if n < |events| {
      assert events[..|events| - 1][..n] == events[..n];
      ReplayStopsAt(spec, a, events[..|events| - 1], n);
    } else {
      assert events[..n] == events;
    }
  }

  method Hydrate<S>(spec: Spec<S>, entity: Entity) returns (result: Result<AggregateRoot<S>, RepositoryError>)
    requires forall i :: 0 <= i < |entity.events| ==> Terminates(spec.upcasters, entity.events[i])
    modifies entity
    ensures !entity.replaying
    ensures match Hydrated(spec, old(entity.Value()))
      case Ok(a) => result.Ok? && fresh(result.value) && result.value.spec == spec
        && result.value.entity == entity && result.value.Value() == a
      case Err(error) => result == Err(error)
  {
    var agg := new AggregateRoot(spec, entity);
    var events := UpcastAll(entity.events, spec.upcasters);
    var replayed := agg.ReplayInOrder(events);
    if replayed.Err? {
      return Err(replayed.error);
    }
    result := Ok(agg);
  }
}
