/** Runs of any number of clients of one snapshot repository, interleaved at every store
    access: entity reads, snapshot reads, commits, snapshot saves and deletes are separate
    steps (src/snapshot/repository.rs). */
module SnapshotRuns {
  import opened Basics
  import opened Events
  import opened Entities
  import opened EventStore
  import opened Upcasting
  import opened Aggregates
  import opened Snapshots

  /** Where a client is: between the two reads of a load, holding an aggregate, or between
      its commit and the snapshot decision that follows. */
  datatype Client<S> =
    | Idle
    | Fetched(entity: EntityState)
    | Ready(entity: EntityState, snap: Option<SnapshotRecord>)
    | Holding(agg: Aggregate<S>)
    | Saving(agg: Aggregate<S>)

  datatype State<S> = State(store: Store, snapshots: SnapshotStore, clients: map<nat, Client<S>>)

  datatype Action =
    | Create(client: nat)
    | Fetch(client: nat, id: string)
    | ReadSnapshot(client: nat)
    | Finish(client: nat)
    | Command(client: nat, name: string, args: Payload)
    | Commit(clients: seq<nat>)
    | Save(client: nat, frequency: nat)
    | CommitAndSave(clients: seq<nat>, frequency: nat)
    | DeleteSnapshot(id: string)

  function At<S>(s: State<S>, c: nat): Client<S>
  {
    if c in s.clients then s.clients[c] else Idle
  }

  function Put<S>(s: State<S>, c: nat, client: Client<S>): State<S>
  {
    s.(clients := s.clients[c := client])
  }

  function Batch<S>(s: State<S>, cs: seq<nat>): seq<EntityState>
    requires forall i :: 0 <= i < |cs| ==> At(s, cs[i]).Holding?
  {
    seq(|cs|, i requires 0 <= i < |cs| => At(s, cs[i]).agg.entity)
  }

  /** One commit takes distinct aggregates with distinct ids. `AllValid` holds in every
      reachable state (see `Consistent`) and only makes `AfterCommit` well formed. */
  ghost predicate CanCommit<S>(s: State<S>, cs: seq<nat>)
  {
    && (forall i :: 0 <= i < |cs| ==> At(s, cs[i]).Holding?)
    && (forall i, j :: 0 <= i < j < |cs| ==> cs[i] != cs[j])
    && AllValid(Batch(s, cs)) && DistinctIds(Batch(s, cs))
  }

  /** Commands are typed, and do not rename an aggregate that has committed events. */
  predicate CanCall<S>(sn: Snapshottable<S>, a: Aggregate<S>, name: string, args: Payload)
  {
    sn.spec.arm(name, args) &&
    (a.entity.committedVersion == 0 || sn.spec.newId(name, args) in {None, Some(a.entity.id)})
  }

  ghost predicate Enabled<S>(sn: Snapshottable<S>, s: State<S>, action: Action)
  {
    match action
    case Create(_) => true
    case Fetch(_, id) => id in s.store
    case ReadSnapshot(c) => At(s, c).Fetched?
    case Finish(c) => At(s, c).Ready?
    case Command(c, name, args) => At(s, c).Holding? && CanCall(sn, At(s, c).agg, name, args)
    case Commit(cs) => CanCommit(s, cs)
    case Save(c, _) => At(s, c).Saving?
    case CommitAndSave(cs, _) => CanCommit(s, cs)
    case DeleteSnapshot(_) => true
  }

  ghost function Committed<S>(s: State<S>, cs: seq<nat>): State<S>
    requires CanCommit(s, cs)
  {
    var outcome := AfterCommit(s.store, Batch(s, cs));
    if outcome.result.Err? then s
    else
      State(outcome.store, s.snapshots, map c | c in s.clients ::
        if c in cs && s.clients[c].Holding? then
          Saving(s.clients[c].agg.(entity := MarkedCommitted(s.clients[c].agg.entity)))
        else s.clients[c])
  }

  function Saved<S>(sn: Snapshottable<S>, s: State<S>, c: nat, frequency: nat): State<S>
  {
    if !At(s, c).Saving? then s
    else
      var a := At(s, c).agg;
      if SnapshotDue(a, frequency) then
        Put(s.(snapshots := s.snapshots[a.entity.id := SnapshotOf(sn, a)]), c,
          Holding(a.(entity := a.entity.(snapshotVersion := a.entity.version))))
      else Put(s, c, Holding(a))
  }

  function SavedAll<S>(sn: Snapshottable<S>, s: State<S>, cs: seq<nat>, frequency: nat): State<S>
  {
    if cs == [] then s else Saved(sn, SavedAll(sn, s, cs[..|cs| - 1], frequency), cs[|cs| - 1], frequency)
  }

  function Finished<S>(sn: Snapshottable<S>, e: EntityState, snap: Option<SnapshotRecord>): Client<S>
  {
    match HydratedWithOptionalSnapshot(sn, e, snap)
    case Ok(a) => Holding(a)
    case Err(_) => Idle
  }

  /** An action that is not enabled does nothing. */
  ghost function After<S>(sn: Snapshottable<S>, s: State<S>, action: Action): State<S>
  {
    if !Enabled(sn, s, action) then s else
    match action
    case Create(c) => Put(s, c, Holding(New(sn.spec)))
    case Fetch(c, id) => Put(s, c, Fetched(Loaded(id, s.store[id])))
    case ReadSnapshot(c) =>
      var e := At(s, c).entity;
      Put(s, c, Ready(e, if e.id in s.snapshots then Some(s.snapshots[e.id]) else None))
    case Finish(c) => Put(s, c, Finished(sn, At(s, c).entity, At(s, c).snap))
    case Command(c, name, args) => Put(s, c, Holding(Invoked(sn.spec, At(s, c).agg, name, args)))
    case Commit(cs) => Committed(s, cs)
    case Save(c, frequency) => Saved(sn, s, c, frequency)
    case CommitAndSave(cs, frequency) => SavedAll(sn, Committed(s, cs), cs, frequency)
    case DeleteSnapshot(id) => s.(snapshots := s.snapshots - {id})
  }

  ghost function Run<S>(sn: Snapshottable<S>, s: State<S>, actions: seq<Action>): State<S>
  {
    if actions == [] then s else After(sn, Run(sn, s, actions[..|actions| - 1]), actions[|actions| - 1])
  }

  // ---- The invariant -----------------------------------------------------------------

  /** Replaying the log stored under `id` does not move it to another id. */
  ghost predicate KeyStable<S>(sn: Snapshottable<S>, id: string, log: seq<EventRecord>)
  {
    Fold(sn.spec, Domain(id, sn.spec.init), UpcastEvents(sn.spec.upcasters, log)).id == id
  }

  ghost predicate FetchedFrom<S>(sn: Snapshottable<S>, store: Store, e: EntityState)
  {
    e == Loaded(e.id, e.events) && Numbered(e.events) && KeyStable(sn, e.id, e.events) && e.events <= Log(store, e.id)
  }

  ghost predicate Live<S>(sn: Snapshottable<S>, store: Store, a: Aggregate<S>)
  {
    && a.entity.Valid() && Numbered(a.entity.events) && Faithful(sn.spec, a)
    && a.entity.events[..a.entity.committedVersion] <= Log(store, a.entity.id)
  }

  ghost predicate ClientOk<S>(sn: Snapshottable<S>, store: Store, client: Client<S>)
  {
    match client
    case Idle => true
    case Fetched(e) => FetchedFrom(sn, store, e)
    case Ready(e, snap) => FetchedFrom(sn, store, e) && (snap.Some? ==> Fits(sn, e.id, Log(store, e.id), snap.value))
    case Holding(a) => Live(sn, store, a)
    case Saving(a) => Live(sn, store, a) && a.entity.committedVersion == a.entity.version
  }

  ghost predicate StoreOk<S>(sn: Snapshottable<S>, store: Store)
  {
    forall id :: id in store ==> Numbered(store[id]) && KeyStable(sn, id, store[id])
  }

  ghost predicate SnapshotsOk<S>(sn: Snapshottable<S>, store: Store, snapshots: SnapshotStore)
  {
    forall id :: id in snapshots ==> Fits(sn, id, Log(store, id), snapshots[id])
  }

  ghost predicate Consistent<S>(sn: Snapshottable<S>, s: State<S>)
  {
    && StoreOk(sn, s.store)
    && SnapshotsOk(sn, s.store, s.snapshots)
    && forall c :: ClientOk(sn, s.store, At(s, c))
  }

  /** The law an aggregate type owes: it records current versions and its snapshots restore. */
  ghost predicate Lawful<S(!new)>(sn: Snapshottable<S>)
  {
    RecordsCurrentVersions(sn.spec) && Restores(sn)
  }

  ghost predicate Grows(store: Store, store': Store)
  {
    forall id :: Log(store, id) <= Log(store', id)
  }

  lemma GrowthKeepsClientOk<S>(sn: Snapshottable<S>, store: Store, store': Store, client: Client<S>)
    requires Grows(store, store') && ClientOk(sn, store, client)
    ensures ClientOk(sn, store', client)
  {
    match client {
      case Ready(e, snap) =>
        if snap.Some? {
          GrowthKeepsFit(sn, e.id, Log(store, e.id), Log(store', e.id), snap.value);
        }
      case _ =>
    }
  }

  lemma CommitGrows<S>(s: State<S>, cs: seq<nat>)
    requires CanCommit(s, cs)
    ensures Grows(s.store, Committed(s, cs).store)
  {
    if AfterCommit(s.store, Batch(s, cs)).result.Ok? {
      forall id ensures Log(s.store, id) <= Log(Committed(s, cs).store, id) {
        AppendAllLog(s.store, Batch(s, cs), id);
      }
    }
  }

  lemma CommitStoresHistory<S>(sn: Snapshottable<S>, s: State<S>, cs: seq<nat>, i: nat)
    requires Consistent(sn, s) && CanCommit(s, cs) && i < |cs|
    requires AfterCommit(s.store, Batch(s, cs)).result.Ok?
    ensures var e := At(s, cs[i]).agg.entity; Log(Committed(s, cs).store, e.id) == e.events
  {
    assert ClientOk(sn, s.store, At(s, cs[i]));
    CommitStoresWholeHistory(s.store, Batch(s, cs), i);
  }

  lemma CommitKeepsStoreOk<S>(sn: Snapshottable<S>, s: State<S>, cs: seq<nat>)
    requires Consistent(sn, s) && CanCommit(s, cs)
    requires AfterCommit(s.store, Batch(s, cs)).result.Ok?
    ensures StoreOk(sn, Committed(s, cs).store)
  {
    var batch, t := Batch(s, cs), Committed(s, cs);
    forall id | id in t.store ensures Numbered(t.store[id]) && KeyStable(sn, id, t.store[id]) {
      if i :| 0 <= i < |cs| && batch[i].id == id {
        CommitStoresHistory(sn, s, cs, i);
        assert ClientOk(sn, s.store, At(s, cs[i]));
      } else {
        AppendAllLog(s.store, batch, id);
        NewEventsForDistinct(batch, id);
        assert t.store[id] == Log(s.store, id);
      }
    }
  }

  lemma MarkedIsLive<S>(sn: Snapshottable<S>, store: Store, store': Store, a: Aggregate<S>)
    requires Live(sn, store, a) && Log(store', a.entity.id) == a.entity.events
    ensures ClientOk(sn, store', Saving(a.(entity := MarkedCommitted(a.entity))))
  {
  }

  lemma CommitKeepsClientsOk<S>(sn: Snapshottable<S>, s: State<S>, cs: seq<nat>, c: nat)
    requires Consistent(sn, s) && CanCommit(s, cs)
    requires AfterCommit(s.store, Batch(s, cs)).result.Ok?
    ensures ClientOk(sn, Committed(s, cs).store, At(Committed(s, cs), c))
  {
    var t := Committed(s, cs);
    assert ClientOk(sn, s.store, At(s, c));
    if c in cs {
      var i :| 0 <= i < |cs| && cs[i] == c;
      CommitStoresHistory(sn, s, cs, i);
      MarkedIsLive(sn, s.store, t.store, At(s, c).agg);
    } else {
      CommitGrows(s, cs);
      GrowthKeepsClientOk(sn, s.store, t.store, At(s, c));
      assert At(t, c) == At(s, c);
    }
  }

  lemma CommitKeepsConsistent<S>(sn: Snapshottable<S>, s: State<S>, cs: seq<nat>)
    requires Consistent(sn, s) && CanCommit(s, cs)
    ensures Consistent(sn, Committed(s, cs))
  {
    if AfterCommit(s.store, Batch(s, cs)).result.Ok? {
      var t := Committed(s, cs);
      CommitKeepsStoreOk(sn, s, cs);
      CommitGrows(s, cs);
      forall id | id in t.snapshots ensures Fits(sn, id, Log(t.store, id), t.snapshots[id]) {
        GrowthKeepsFit(sn, id, Log(s.store, id), Log(t.store, id), s.snapshots[id]);
      }
      forall c ensures ClientOk(sn, t.store, At(t, c)) {
        CommitKeepsClientsOk(sn, s, cs, c);
      }
    }
  }

  lemma SaveKeepsConsistent<S>(sn: Snapshottable<S>, s: State<S>, c: nat, frequency: nat)
    requires Consistent(sn, s)
    ensures Consistent(sn, Saved(sn, s, c, frequency))
  {
    if At(s, c).Saving? {
      var a := At(s, c).agg;
      assert ClientOk(sn, s.store, At(s, c));
      if SnapshotDue(a, frequency) {
        OwnSnapshotFits(sn, a, Log(s.store, a.entity.id));
        var t := s.(snapshots := s.snapshots[a.entity.id := SnapshotOf(sn, a)]);
        assert Consistent(sn, t) by {
          forall d ensures ClientOk(sn, t.store, At(t, d)) {
            assert ClientOk(sn, s.store, At(s, d));
          }
        }
        PutKeepsConsistent(sn, t, c, Holding(a.(entity := a.entity.(snapshotVersion := a.entity.version))));
      } else {
        PutKeepsConsistent(sn, s, c, Holding(a));
      }
    }
  }

  lemma {:induction false} SaveAllKeepsConsistent<S>(sn: Snapshottable<S>, s: State<S>, cs: seq<nat>, frequency: nat)
    requires Consistent(sn, s)
    ensures Consistent(sn, SavedAll(sn, s, cs, frequency))
  {
    if cs != [] {
      SaveAllKeepsConsistent(sn, s, cs[..|cs| - 1], frequency);
      SaveKeepsConsistent(sn, SavedAll(sn, s, cs[..|cs| - 1], frequency), cs[|cs| - 1], frequency);
    }
  }

  /** The load gives what a full replay gives, but for the version of the snapshot it used. */
  ghost predicate LoadsLikeReplay<S>(sn: Snapshottable<S>, e: EntityState, snap: Option<SnapshotRecord>)
  {
    HydratedWithOptionalSnapshot(sn, e, snap) == Hydrated(sn.spec, e.(snapshotVersion := UsedVersion(e, snap)))
  }

  /** Whatever was fetched when: finishing a load through the snapshot that was read gives
      what a full replay of the fetched entity gives, up to the snapshot version. */
  lemma LoadEqualsReplay<S(!new)>(sn: Snapshottable<S>, store: Store, e: EntityState, snap: Option<SnapshotRecord>)
    requires Lawful(sn) && ClientOk(sn, store, Ready(e, snap))
    ensures LoadsLikeReplay(sn, e, snap)
  {
    if snap.Some? && snap.value.version <= e.version {
      FitsShorter(sn, e.id, Log(store, e.id), e.events, snap.value);
      SnapshotEqualsReplay(sn, e, snap.value);
    } else {
      assert e == e.(snapshotVersion := e.snapshotVersion);
    }
  }

  lemma HydratedIsLive<S>(sn: Snapshottable<S>, store: Store, e: EntityState, v: nat)
    requires FetchedFrom(sn, store, e) && Hydrated(sn.spec, e.(snapshotVersion := v)).Ok?
    ensures var a := Hydrated(sn.spec, e.(snapshotVersion := v)).value;
      Live(sn, store, a) && a.entity == e.(snapshotVersion := v)
  {
    HydrateIsFold(sn.spec, e.(snapshotVersion := v));
  }

  lemma FinishKeepsClientOk<S(!new)>(sn: Snapshottable<S>, store: Store, e: EntityState, snap: Option<SnapshotRecord>)
    requires Lawful(sn) && ClientOk(sn, store, Ready(e, snap))
    ensures ClientOk(sn, store, Finished(sn, e, snap))
  {
    LoadEqualsReplay(sn, store, e, snap);
    var v := UsedVersion(e, snap);
    if Hydrated(sn.spec, e.(snapshotVersion := v)).Ok? {
      HydratedIsLive(sn, store, e, v);
    }
  }

  lemma CommandKeepsLive<S>(sn: Snapshottable<S>, store: Store, a: Aggregate<S>, name: string, args: Payload)
    requires RecordsCurrentVersions(sn.spec) && Live(sn, store, a) && CanCall(sn, a, name, args)
    ensures Live(sn, store, Invoked(sn.spec, a, name, args))
  {
    InvokeKeepsFaithful(sn.spec, a, name, args);
    DigestExtendsNewEvents(a.entity, name, sn.spec.eventVersion(name), args);
    var b, k := Invoked(sn.spec, a, name, args), a.entity.committedVersion;
    assert b.entity.events[..k] == a.entity.events[..k];
  }

  lemma NewIsLive<S>(sn: Snapshottable<S>, store: Store)
    ensures Live(sn, store, New(sn.spec))
  {
    var a := New(sn.spec);
    assert UpcastEvents(sn.spec.upcasters, a.entity.events) == [];
  }

  lemma PutKeepsConsistent<S>(sn: Snapshottable<S>, s: State<S>, c: nat, client: Client<S>)
    requires Consistent(sn, s) && ClientOk(sn, s.store, client)
    ensures Consistent(sn, Put(s, c, client))
  {
    forall d ensures ClientOk(sn, s.store, At(Put(s, c, client), d)) {
      assert ClientOk(sn, s.store, At(s, d));
    }
  }

  lemma ActionKeepsConsistent<S(!new)>(sn: Snapshottable<S>, s: State<S>, action: Action)
    requires Lawful(sn) && Consistent(sn, s)
    ensures Consistent(sn, After(sn, s, action))
  {
    if !Enabled(sn, s, action) {
      return;
    }
    match action {
      case Create(c) =>
        NewIsLive(sn, s.store);
        PutKeepsConsistent(sn, s, c, Holding(New(sn.spec)));
      case Fetch(c, id) =>
        PutKeepsConsistent(sn, s, c, Fetched(Loaded(id, s.store[id])));
      case ReadSnapshot(c) =>
        assert ClientOk(sn, s.store, At(s, c));
        var e := At(s, c).entity;
        PutKeepsConsistent(sn, s, c, Ready(e, if e.id in s.snapshots then Some(s.snapshots[e.id]) else None));
      case Finish(c) =>
        assert ClientOk(sn, s.store, At(s, c));
        FinishKeepsClientOk(sn, s.store, At(s, c).entity, At(s, c).snap);
        PutKeepsConsistent(sn, s, c, Finished(sn, At(s, c).entity, At(s, c).snap));
      case Command(c, name, args) =>
        assert ClientOk(sn, s.store, At(s, c));
        CommandKeepsLive(sn, s.store, At(s, c).agg, name, args);
        PutKeepsConsistent(sn, s, c, Holding(Invoked(sn.spec, At(s, c).agg, name, args)));
      case Commit(cs) =>
        CommitKeepsConsistent(sn, s, cs);
      case Save(c, frequency) =>
        SaveKeepsConsistent(sn, s, c, frequency);
      case CommitAndSave(cs, frequency) =>
        CommitKeepsConsistent(sn, s, cs);
        SaveAllKeepsConsistent(sn, Committed(s, cs), cs, frequency);
      case DeleteSnapshot(id) =>
        var t := After(sn, s, action);
        forall c ensures ClientOk(sn, t.store, At(t, c)) {
          assert ClientOk(sn, s.store, At(s, c));
        }
    }
  }

  lemma {:induction false} RunKeepsConsistent<S(!new)>(sn: Snapshottable<S>, s: State<S>, actions: seq<Action>)
    requires Lawful(sn) && Consistent(sn, s)
    ensures Consistent(sn, Run(sn, s, actions))
  {
    if actions != [] {
      var front := actions[..|actions| - 1];
      RunKeepsConsistent(sn, s, front);
      ActionKeepsConsistent(sn, Run(sn, s, front), actions[|actions| - 1]);
    }
  }

  // ---- Main results ------------------------------------------------------------------

  /** In every interleaving, a load that has read its entity and its snapshot returns what
      a full hydrate of that entity returns; only `snapshotVersion` may differ. */
  lemma SnapshotLoadsEqualFullReplay<S(!new)>(sn: Snapshottable<S>, s: State<S>, actions: seq<Action>, c: nat)
    requires Lawful(sn) && Consistent(sn, s) && At(Run(sn, s, actions), c).Ready?
    ensures var e, snap := At(Run(sn, s, actions), c).entity, At(Run(sn, s, actions), c).snap;
      LoadsLikeReplay(sn, e, snap)
  {
    RunKeepsConsistent(sn, s, actions);
    var t := Run(sn, s, actions);
    assert ClientOk(sn, t.store, At(t, c));
    LoadEqualsReplay(sn, t.store, At(t, c).entity, At(t, c).snap);
  }

  /** In every interleaving, the id and state of an aggregate in a client's hands are what
      hydrating its own events from scratch gives. */
  lemma HeldAggregatesHydrateBack<S(!new)>(sn: Snapshottable<S>, s: State<S>, actions: seq<Action>, c: nat)
    requires Lawful(sn) && Consistent(sn, s) && At(Run(sn, s, actions), c).Holding?
    ensures var a := At(Run(sn, s, actions), c).agg;
      var stored := Loaded(a.entity.id, a.entity.events);
      Hydrated(sn.spec, stored) == Ok(Aggregate(stored, a.state, []))
  {
    RunKeepsConsistent(sn, s, actions);
    var t := Run(sn, s, actions);
    assert ClientOk(sn, t.store, At(t, c));
    FaithfulHydratesBack(sn.spec, At(t, c).agg);
  }

  /** In every reachable state a stored snapshot is the fold of the first `version` upcast
      events of the log it belongs to. */
  lemma StoredSnapshotsFit<S(!new)>(sn: Snapshottable<S>, s: State<S>, actions: seq<Action>, id: string)
    requires Lawful(sn) && Consistent(sn, s) && id in Run(sn, s, actions).snapshots
    ensures var t := Run(sn, s, actions); Fits(sn, id, Log(t.store, id), t.snapshots[id])
  {
    RunKeepsConsistent(sn, s, actions);
  }
}
