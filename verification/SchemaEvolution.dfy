/** When a log recorded by one version of an aggregate type means the same to another: the
    upcast payloads are transformed so that replaying commutes with a map of the states. */
module SchemaEvolution {
  import opened Basics
  import opened Events
  import opened Entities
  import opened Upcasting
  import opened Aggregates

  /** `e`, upcast for either type, does the same to a state and to its image. */
  ghost predicate Commutes<S(!new), T>(from: Spec<S>, to: Spec<T>, lift: S -> T, e: EventRecord)
  {
    var o, n := Upcast(from.upcasters, e), Upcast(to.upcasters, e);
    from.arm(o.name, o.payload) ==>
      && to.arm(n.name, n.payload)
      && from.newId(o.name, o.payload) == to.newId(n.name, n.payload)
      && forall s: S :: SameEffect(from, to, lift, s, o, n)
  }

  ghost predicate SameEffect<S, T>(from: Spec<S>, to: Spec<T>, lift: S -> T, s: S, o: EventRecord, n: EventRecord)
  {
    && from.guard(s, o.name, o.payload) == to.guard(lift(s), n.name, n.payload)
    && lift(from.body(s, o.name, o.payload)) == to.body(lift(s), n.name, n.payload)
  }

  function Lifted<S, T>(lift: S -> T, d: Domain<S>): Domain<T>
  {
    Domain(d.id, lift(d.state))
  }

  lemma {:induction false} FoldCommutes<S(!new), T>(from: Spec<S>, to: Spec<T>, lift: S -> T, d: Domain<S>, log: seq<EventRecord>)
    requires AllArms(from, UpcastEvents(from.upcasters, log))
    requires forall i :: 0 <= i < |log| ==> Commutes(from, to, lift, log[i])
    ensures AllArms(to, UpcastEvents(to.upcasters, log))
    ensures Fold(to, Lifted(lift, d), UpcastEvents(to.upcasters, log)) == Lifted(lift, Fold(from, d, UpcastEvents(from.upcasters, log)))
  {
    if log != [] {
      var front, last := log[..|log| - 1], log[|log| - 1];
      var olds, news := UpcastEvents(from.upcasters, log), UpcastEvents(to.upcasters, log);
      assert olds[..|log| - 1] == UpcastEvents(from.upcasters, front);
      assert news[..|log| - 1] == UpcastEvents(to.upcasters, front);
      FoldCommutes(from, to, lift, d, front);
      assert Commutes(from, to, lift, last);
      assert SameEffect(from, to, lift, Fold(from, d, olds[..|log| - 1]).state, olds[|log| - 1], news[|log| - 1]);
    }
  }

  /** A transform that commutes event by event lifts to whole logs: whatever entity the old
      type hydrates, the new type hydrates to the image, under the same id. */
  lemma HydrateCommutes<S(!new), T>(from: Spec<S>, to: Spec<T>, lift: S -> T, e: EntityState)
    requires lift(from.init) == to.init
    requires forall i :: 0 <= i < |e.events| ==> Commutes(from, to, lift, e.events[i])
    requires Hydrated(from, e).Ok?
    ensures var a := Hydrated(from, e).value;
      Hydrated(to, e) == Ok(Aggregate(a.entity, lift(a.state), []))
  {
    HydrateIsFold(from, e);
    HydrateIsFold(to, e);
    FoldCommutes(from, to, lift, Domain(e.id, from.init), e.events);
  }

  /** Live commands record events of the type's current versions that it can replay. */
  ghost predicate RecordedBy<S>(spec: Spec<S>, events: seq<EventRecord>)
  {
    forall i :: 0 <= i < |events| ==>
      spec.arm(events[i].name, events[i].payload) && events[i].version == spec.eventVersion(events[i].name)
  }

  lemma {:induction false} CallsRecordCurrentVersions<S>(spec: Spec<S>, calls: seq<Call>)
    requires WellTyped(spec, calls)
    ensures RecordedBy(spec, CalledAll(spec, New(spec), calls).entity.events)
  {
    if calls != [] {
      CallsRecordCurrentVersions(spec, calls[..|calls| - 1]);
    }
  }

  /** Hence a log that the old type recorded in any command run hydrates as the new type to
      the image of the live state. */
  lemma RunCommutes<S(!new), T>(from: Spec<S>, to: Spec<T>, lift: S -> T, calls: seq<Call>)
    requires lift(from.init) == to.init && RecordsCurrentVersions(from) && WellTyped(from, calls)
    requires forall e: EventRecord ::
      from.arm(e.name, e.payload) && e.version == from.eventVersion(e.name) ==> Commutes(from, to, lift, e)
    ensures var a := CalledAll(from, New(from), calls);
      var stored := Loaded(a.entity.id, a.entity.events);
      Hydrated(to, stored) == Ok(Aggregate(stored, lift(a.state), []))
  {
    var a := CalledAll(from, New(from), calls);
    RecordReplayRoundTrip(from, calls);
    CallsRecordCurrentVersions(from, calls);
    HydrateCommutes(from, to, lift, Loaded(a.entity.id, a.entity.events));
  }
}
