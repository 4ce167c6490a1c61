/** How far a stored snapshot can lag behind its log (src/snapshot/repository.rs): runs in
    which a commit and its snapshot decision are one step and no snapshot is deleted. */
module SnapshotLag {
  import opened Basics
  import opened Events
  import opened Entities
  import opened EventStore
  import opened Aggregates
  import opened Snapshots
  import opened SnapshotRuns

  function StoredVersion(snapshots: SnapshotStore, id: string): nat
  {
    if id in snapshots then snapshots[id].version else 0
  }

  /** The log of `id` is fewer than `k` events ahead of its snapshot. */
  predicate WithinLag(store: Store, snapshots: SnapshotStore, id: string, k: nat)
  {
    |Log(store, id)| < StoredVersion(snapshots, id) + k
  }

  /** All commits go through one snapshot repository of frequency `k`. */
  predicate Disciplined(action: Action, k: nat)
  {
    match action
    case Commit(_) => false
    case Save(_, _) => false
    case DeleteSnapshot(_) => false
    case CommitAndSave(_, frequency) => frequency == k
    case _ => true
  }

  /** The snapshot version a client remembers is not ahead of the stored one. */
  predicate Remembers<S>(snapshots: SnapshotStore, client: Client<S>)
  {
    match client
    case Idle => true
    case Fetched(_) => true
    case Ready(e, snap) => snap.Some? ==> snap.value.version <= StoredVersion(snapshots, e.id)
    case Holding(a) =>
      && a.entity.snapshotVersion <= a.entity.committedVersion
      && (a.entity.committedVersion > 0 ==> a.entity.snapshotVersion <= StoredVersion(snapshots, a.entity.id))
    case Saving(_) => false
  }

  ghost predicate Bounded<S>(s: State<S>, k: nat)
  {
    && (forall id :: WithinLag(s.store, s.snapshots, id, k))
    && forall c :: Remembers(s.snapshots, At(s, c))
  }

  // ---- What the snapshot decisions of one commit do ----------------------------------

  ghost predicate AllSaving<S>(s: State<S>, cs: seq<nat>)
  {
    && (forall i, j :: 0 <= i < j < |cs| ==> cs[i] != cs[j])
    && (forall i :: 0 <= i < |cs| ==> At(s, cs[i]).Saving?)
    && (forall i, j :: 0 <= i < j < |cs| ==> At(s, cs[i]).agg.entity.id != At(s, cs[j]).agg.entity.id)
  }

  function VersionAfterSave<S>(a: Aggregate<S>, k: nat, stored: nat): nat
  {
    if SnapshotDue(a, k) then a.entity.version else stored
  }

  function AggregateAfterSave<S>(a: Aggregate<S>, k: nat): Aggregate<S>
  {
    if SnapshotDue(a, k) then a.(entity := a.entity.(snapshotVersion := a.entity.version)) else a
  }

  lemma {:induction false} SavedAllBystander<S>(sn: Snapshottable<S>, s: State<S>, cs: seq<nat>, k: nat, c: nat)
    requires c !in cs
    ensures At(SavedAll(sn, s, cs, k), c) == At(s, c)
    ensures SavedAll(sn, s, cs, k).store == s.store
  {
    if cs != [] {
      SavedAllBystander(sn, s, cs[..|cs| - 1], k, c);
    }
  }

  lemma {:induction false} SavedAllOtherId<S>(sn: Snapshottable<S>, s: State<S>, cs: seq<nat>, k: nat, id: string)
    requires AllSaving(s, cs) && forall i :: 0 <= i < |cs| ==> At(s, cs[i]).agg.entity.id != id
    ensures StoredVersion(SavedAll(sn, s, cs, k).snapshots, id) == StoredVersion(s.snapshots, id)
    ensures SavedAll(sn, s, cs, k).store == s.store
  {
    if cs != [] {
      var front, c := cs[..|cs| - 1], cs[|cs| - 1];
      SavedAllOtherId(sn, s, front, k, id);
      SavedAllBystander(sn, s, front, k, c);
    }
  }

  lemma {:induction false} SavedAllMember<S>(sn: Snapshottable<S>, s: State<S>, cs: seq<nat>, k: nat, i: nat)
    requires AllSaving(s, cs) && i < |cs|
    ensures var t, a := SavedAll(sn, s, cs, k), At(s, cs[i]).agg;
      && t.store == s.store
      && At(t, cs[i]) == Holding(AggregateAfterSave(a, k))
      && StoredVersion(t.snapshots, a.entity.id) == VersionAfterSave(a, k, StoredVersion(s.snapshots, a.entity.id))
  {
    var front, c := cs[..|cs| - 1], cs[|cs| - 1];
    SavedAllBystander(sn, s, front, k, c);
    if i == |cs| - 1 {
      SavedAllOtherId(sn, s, front, k, At(s, c).agg.entity.id);
    } else {
      SavedAllMember(sn, s, front, k, i);
    }
  }

  lemma {:induction false} NothingToSave<S>(sn: Snapshottable<S>, s: State<S>, cs: seq<nat>, k: nat)
    requires forall i :: 0 <= i < |cs| ==> !At(s, cs[i]).Saving?
    ensures SavedAll(sn, s, cs, k) == s
  {
    if cs != [] {
      NothingToSave(sn, s, cs[..|cs| - 1], k);
    }
  }

  lemma CommittedClient<S>(s: State<S>, cs: seq<nat>, i: nat)
    requires CanCommit(s, cs) && AfterCommit(s.store, Batch(s, cs)).result.Ok? && i < |cs|
    ensures var a := At(s, cs[i]).agg;
      At(Committed(s, cs), cs[i]) == Saving(a.(entity := MarkedCommitted(a.entity)))
  {
    assert cs[i] in s.clients;
  }

  lemma CommittedAreSaving<S>(s: State<S>, cs: seq<nat>)
    requires CanCommit(s, cs) && AfterCommit(s.store, Batch(s, cs)).result.Ok?
    ensures AllSaving(Committed(s, cs), cs)
  {
    forall i | 0 <= i < |cs|
      ensures At(Committed(s, cs), cs[i]).Saving? && At(Committed(s, cs), cs[i]).agg.entity.id == Batch(s, cs)[i].id
    {
      CommittedClient(s, cs, i);
    }
  }

  /** The facts about one aggregate of a successful commit that the bound rests on. */
  lemma MemberFacts<S>(sn: Snapshottable<S>, s: State<S>, cs: seq<nat>, k: nat, i: nat)
    requires Consistent(sn, s) && Bounded(s, k) && CanCommit(s, cs) && i < |cs|
    requires AfterCommit(s.store, Batch(s, cs)).result.Ok?
    ensures var e := At(s, cs[i]).agg.entity;
      && e.Valid()
      && |Log(Committed(s, cs).store, e.id)| == e.version
      && e.committedVersion == |Log(s.store, e.id)|
      && StoredVersion(s.snapshots, e.id) <= |Log(s.store, e.id)|
      && e.snapshotVersion <= StoredVersion(s.snapshots, e.id)
  {
    var e := At(s, cs[i]).agg.entity;
    assert ClientOk(sn, s.store, At(s, cs[i]));
    CommitStoresHistory(sn, s, cs, i);
    CommitSucceedsIff(s.store, Batch(s, cs));
    assert UpToDate(s.store, Batch(s, cs)[i]);
    assert e.id in s.snapshots ==> Fits(sn, e.id, Log(s.store, e.id), s.snapshots[e.id]);
    assert Remembers(s.snapshots, At(s, cs[i]));
  }

  /** One member of a successful commit: its log is whole, its remembered version is not
      ahead of the stored one, so afterwards the lag is below `k` again. */
  lemma MemberWithinLag<S>(sn: Snapshottable<S>, s: State<S>, cs: seq<nat>, k: nat, i: nat)
    requires Consistent(sn, s) && Bounded(s, k) && CanCommit(s, cs) && i < |cs|
    requires AfterCommit(s.store, Batch(s, cs)).result.Ok?
    ensures var t := SavedAll(sn, Committed(s, cs), cs, k);
      var id := At(s, cs[i]).agg.entity.id;
      && WithinLag(t.store, t.snapshots, id, k)
      && StoredVersion(s.snapshots, id) <= StoredVersion(t.snapshots, id)
      && Remembers(t.snapshots, At(t, cs[i]))
  {
    MemberFacts(sn, s, cs, k, i);
    CommittedAreSaving(s, cs);
    CommittedClient(s, cs, i);
    SavedAllMember(sn, Committed(s, cs), cs, k, i);
    assert WithinLag(s.store, s.snapshots, At(s, cs[i]).agg.entity.id, k);
  }

  lemma StrangerWithinLag<S>(sn: Snapshottable<S>, s: State<S>, cs: seq<nat>, k: nat, id: string)
    requires Bounded(s, k) && CanCommit(s, cs) && AfterCommit(s.store, Batch(s, cs)).result.Ok?
    requires forall i :: 0 <= i < |cs| ==> Batch(s, cs)[i].id != id
    ensures var t := SavedAll(sn, Committed(s, cs), cs, k);
      WithinLag(t.store, t.snapshots, id, k) && StoredVersion(t.snapshots, id) == StoredVersion(s.snapshots, id)
  {
    var m := Committed(s, cs);
    CommittedAreSaving(s, cs);
    forall i | 0 <= i < |cs| ensures At(m, cs[i]).agg.entity.id != id {
      CommittedClient(s, cs, i);
      assert Batch(s, cs)[i].id != id;
    }
    SavedAllOtherId(sn, m, cs, k, id);
    AppendAllLog(s.store, Batch(s, cs), id);
    NewEventsForDistinct(Batch(s, cs), id);
    assert WithinLag(s.store, s.snapshots, id, k);
  }

  lemma IdsWithinLag<S>(sn: Snapshottable<S>, s: State<S>, cs: seq<nat>, k: nat, id: string)
    requires Consistent(sn, s) && Bounded(s, k) && CanCommit(s, cs)
    requires AfterCommit(s.store, Batch(s, cs)).result.Ok?
    ensures var t := SavedAll(sn, Committed(s, cs), cs, k);
      WithinLag(t.store, t.snapshots, id, k) && StoredVersion(s.snapshots, id) <= StoredVersion(t.snapshots, id)
  {
    if i :| 0 <= i < |cs| && Batch(s, cs)[i].id == id {
      MemberWithinLag(sn, s, cs, k, i);
    } else {
      StrangerWithinLag(sn, s, cs, k, id);
    }
  }

  lemma CommitAndSaveStaysBounded<S>(sn: Snapshottable<S>, s: State<S>, cs: seq<nat>, k: nat)
    requires Consistent(sn, s) && Bounded(s, k) && CanCommit(s, cs)
    requires AfterCommit(s.store, Batch(s, cs)).result.Ok?
    ensures Bounded(SavedAll(sn, Committed(s, cs), cs, k), k)
  {
    var t := SavedAll(sn, Committed(s, cs), cs, k);
    forall id ensures WithinLag(t.store, t.snapshots, id, k) && StoredVersion(s.snapshots, id) <= StoredVersion(t.snapshots, id) {
      IdsWithinLag(sn, s, cs, k, id);
    }
    forall c ensures Remembers(t.snapshots, At(t, c)) {
      if c in cs {
        var i :| 0 <= i < |cs| && cs[i] == c;
        MemberWithinLag(sn, s, cs, k, i);
      } else {
        SavedAllBystander(sn, Committed(s, cs), cs, k, c);
        assert Remembers(s.snapshots, At(s, c));
        assert At(t, c) == At(s, c);
      }
    }
  }

  lemma FinishRemembers<S(!new)>(sn: Snapshottable<S>, store: Store, snapshots: SnapshotStore, e: EntityState, snap: Option<SnapshotRecord>)
    requires Lawful(sn) && ClientOk(sn, store, Ready(e, snap)) && Remembers<S>(snapshots, Ready(e, snap))
    ensures Remembers(snapshots, Finished(sn, e, snap))
  {
    if snap.Some? && snap.value.version <= e.version {
      FitsShorter(sn, e.id, Log(store, e.id), e.events, snap.value);
      SnapshotEqualsReplay(sn, e, snap.value);
      if Hydrated(sn.spec, e.(snapshotVersion := snap.value.version)).Ok? {
        HydratedIsLive(sn, store, e, snap.value.version);
      }
    } else {
      assert e == e.(snapshotVersion := 0);
      if Hydrated(sn.spec, e).Ok? {
        HydratedIsLive(sn, store, e, 0);
      }
    }
  }

  /** What a client remembers after an action of its own or of another. */
  lemma ActionRemembers<S(!new)>(sn: Snapshottable<S>, s: State<S>, action: Action, k: nat, c: nat)
    requires Lawful(sn) && Consistent(sn, s) && Bounded(s, k) && Disciplined(action, k) && !action.CommitAndSave?
    ensures Remembers(s.snapshots, At(After(sn, s, action), c))
  {
    assert Remembers(s.snapshots, At(s, c));
    assert ClientOk(sn, s.store, At(s, c));
    if action == Finish(c) && Enabled(sn, s, action) {
      FinishRemembers(sn, s.store, s.snapshots, At(s, c).entity, At(s, c).snap);
    }
  }

  lemma OnlyCommitsChangeStores<S>(sn: Snapshottable<S>, s: State<S>, action: Action, k: nat)
    requires Disciplined(action, k) && !action.CommitAndSave?
    ensures After(sn, s, action).store == s.store && After(sn, s, action).snapshots == s.snapshots
  {
  }

  lemma ActionStaysBounded<S(!new)>(sn: Snapshottable<S>, s: State<S>, action: Action, k: nat)
    requires Lawful(sn) && Consistent(sn, s) && Bounded(s, k) && Disciplined(action, k)
    ensures Bounded(After(sn, s, action), k)
  {
    if !action.CommitAndSave? {
      OnlyCommitsChangeStores(sn, s, action, k);
      forall c ensures Remembers(s.snapshots, At(After(sn, s, action), c)) {
        ActionRemembers(sn, s, action, k, c);
      }
    } else if Enabled(sn, s, action) {
      if AfterCommit(s.store, Batch(s, action.clients)).result.Ok? {
        CommitAndSaveStaysBounded(sn, s, action.clients, k);
      } else {
        NothingToSave(sn, s, action.clients, k);
      }
    }
  }

  /** Snapshot lag bound: starting from an empty store, in every run of the disciplined
      steps with frequency k >= 1, every log is fewer than k events ahead of its snapshot. */
  lemma {:induction false} LagStaysBelowFrequency<S(!new)>(sn: Snapshottable<S>, actions: seq<Action>, k: nat)
    requires Lawful(sn) && k >= 1
    requires forall i :: 0 <= i < |actions| ==> Disciplined(actions[i], k)
    ensures var t := Run(sn, State(map[], map[], map[]), actions); Consistent(sn, t) && Bounded(t, k)
  {
    var start: State<S> := State(map[], map[], map[]);
    RunKeepsConsistent(sn, start, actions);
    if actions != [] {
      var front := actions[..|actions| - 1];
      LagStaysBelowFrequency(sn, front, k);
      ActionStaysBounded(sn, Run(sn, start, front), actions[|actions| - 1], k);
    }
  }

  /** So a load of the current log and snapshot replays fewer than k events. */
  lemma NextLoadIsShort<S(!new)>(sn: Snapshottable<S>, actions: seq<Action>, k: nat, id: string)
    requires Lawful(sn) && k >= 1
    requires forall i :: 0 <= i < |actions| ==> Disciplined(actions[i], k)
    requires id in Run(sn, State(map[], map[], map[]), actions).store
    ensures var t := Run(sn, State(map[], map[], map[]), actions);
      |Replays(Loaded(id, t.store[id]), if id in t.snapshots then Some(t.snapshots[id]) else None)| < k
  {
    LagStaysBelowFrequency(sn, actions, k);
    var t := Run(sn, State(map[], map[], map[]), actions);
    assert WithinLag(t.store, t.snapshots, id, k);
  }

  // ---- Late saves --------------------------------------------------------------------

  ghost predicate AllWithinLag<S>(s: State<S>, k: nat)
  {
    forall id :: WithinLag(s.store, s.snapshots, id, k)
  }

  /** The step replaces some stored snapshot by an older one. */
  ghost predicate MovesBack<S>(s: State<S>, t: State<S>)
  {
    exists id :: StoredVersion(t.snapshots, id) < StoredVersion(s.snapshots, id)
  }

  /** A snapshot decision that comes as a step of its own moves a stored snapshot backwards
      if and only if it is due and the aggregate is older than the snapshot stored for it. */
  lemma SaveMovesBackIff<S>(sn: Snapshottable<S>, s: State<S>, c: nat, k: nat)
    ensures MovesBack(s, After(sn, s, Save(c, k))) <==>
      && At(s, c).Saving? && SnapshotDue(At(s, c).agg, k)
      && At(s, c).agg.entity.version < StoredVersion(s.snapshots, At(s, c).agg.entity.id)
  {
    var t := After(sn, s, Save(c, k));
    if At(s, c).Saving? && SnapshotDue(At(s, c).agg, k) {
      var a := At(s, c).agg;
      assert StoredVersion(t.snapshots, a.entity.id) == a.entity.version;
      assert forall id :: id != a.entity.id ==> StoredVersion(t.snapshots, id) == StoredVersion(s.snapshots, id);
    }
  }

  /** The bound, where it holds, survives such a step if and only if the log has not run k
      events ahead of a due aggregate; and it is lost only by moving a snapshot back. */
  lemma LateSaveKeepsBoundIff<S>(sn: Snapshottable<S>, s: State<S>, c: nat, k: nat)
    requires AllWithinLag(s, k)
    ensures var t := After(sn, s, Save(c, k));
      && (AllWithinLag(t, k) <==>
           !(At(s, c).Saving? && SnapshotDue(At(s, c).agg, k) && At(s, c).agg.entity.version + k <= |Log(s.store, At(s, c).agg.entity.id)|))
      && (!AllWithinLag(t, k) ==> MovesBack(s, t))
  {
    var t := After(sn, s, Save(c, k));
    forall id ensures WithinLag(s.store, s.snapshots, id, k) {}
    if At(s, c).Saving? && SnapshotDue(At(s, c).agg, k) {
      var id := At(s, c).agg.entity.id;
      assert StoredVersion(t.snapshots, id) == At(s, c).agg.entity.version;
      assert forall x :: x != id ==> StoredVersion(t.snapshots, x) == StoredVersion(s.snapshots, x);
      forall x | x != id ensures WithinLag(t.store, t.snapshots, x, k) {
        assert WithinLag(s.store, s.snapshots, x, k);
      }
      assert AllWithinLag(t, k) <==> WithinLag(t.store, t.snapshots, id, k);
      assert WithinLag(s.store, s.snapshots, id, k);
    }
  }

  // ---- A run that loses the bound ----------------------------------------------------

  /** `s` is where `actions` lead from the empty store. */
  ghost predicate Arrives<S>(sn: Snapshottable<S>, actions: seq<Action>, s: State<S>)
  {
    Run(sn, State(map[], map[], map[]), actions) == s && Consistent(sn, s)
  }

  lemma OneMore<S(!new)>(sn: Snapshottable<S>, actions: seq<Action>, s: State<S>, action: Action) returns (more: seq<Action>, t: State<S>)
    requires Lawful(sn) && Arrives(sn, actions, s)
    ensures more == actions + [action] && t == After(sn, s, action) && Arrives(sn, more, t)
  {
    more, t := actions + [action], After(sn, s, action);
    assert more[..|actions|] == actions;
    ActionKeepsConsistent(sn, s, action);
  }

  /** A command that is always accepted and names the id of its aggregate. */
  ghost predicate AlwaysAccepted<S(!new)>(sn: Snapshottable<S>, name: string, args: Payload, id: string)
  {
    sn.spec.arm(name, args) && sn.spec.newId(name, args) == Some(id) && forall s :: sn.spec.guard(s, name, args)
  }

  /** Nothing but client `c` has changed. */
  ghost predicate OnlyClient<S>(s: State<S>, t: State<S>, c: nat)
  {
    t.store == s.store && t.snapshots == s.snapshots && forall d: nat :: d != c ==> At(t, d) == At(s, d)
  }

  lemma CommandOnce<S(!new)>(sn: Snapshottable<S>, s: State<S>, c: nat, name: string, args: Payload, id: string)
    requires Consistent(sn, s) && At(s, c).Holding? && AlwaysAccepted(sn, name, args, id)
    requires At(s, c).agg.entity.committedVersion == 0 || At(s, c).agg.entity.id == id
    ensures var t := After(sn, s, Action.Command(c, name, args));
      && OnlyClient(s, t, c) && At(t, c).Holding?
      && var e, f := At(s, c).agg.entity, At(t, c).agg.entity;
        && f.version == e.version + 1 && f.id == id
        && f.committedVersion == e.committedVersion && f.snapshotVersion == e.snapshotVersion
  {
    assert ClientOk(sn, s.store, At(s, c));
  }

  lemma {:induction false} CommandTimes<S(!new)>(sn: Snapshottable<S>, actions: seq<Action>, s: State<S>, c: nat, name: string, args: Payload, id: string, n: nat)
    returns (more: seq<Action>, t: State<S>)
    requires Lawful(sn) && Arrives(sn, actions, s) && At(s, c).Holding? && AlwaysAccepted(sn, name, args, id)
    requires At(s, c).agg.entity.committedVersion == 0 || At(s, c).agg.entity.id == id
    ensures Arrives(sn, more, t) && OnlyClient(s, t, c) && At(t, c).Holding?
    ensures var e, f := At(s, c).agg.entity, At(t, c).agg.entity;
      && f.version == e.version + n && f.committedVersion == e.committedVersion && f.snapshotVersion == e.snapshotVersion
      && f.id == if n == 0 then e.id else id
  {
    more, t := actions, s;
    if n > 0 {
      var before, u := CommandTimes(sn, actions, s, c, name, args, id, n - 1);
      CommandOnce(sn, u, c, name, args, id);
      more, t := OneMore(sn, before, u, Action.Command(c, name, args));
    }
  }

  lemma CanCommitAlone<S>(sn: Snapshottable<S>, s: State<S>, c: nat)
    requires Consistent(sn, s) && At(s, c).Holding?
    requires |Log(s.store, At(s, c).agg.entity.id)| == At(s, c).agg.entity.committedVersion
    ensures CanCommit(s, [c]) && AfterCommit(s.store, Batch(s, [c])).result.Ok?
  {
    assert ClientOk(sn, s.store, At(s, c));
    CommitSucceedsIff(s.store, Batch(s, [c]));
  }

  lemma CommittedAlone<S>(sn: Snapshottable<S>, s: State<S>, c: nat)
    requires Consistent(sn, s) && At(s, c).Holding? && CanCommit(s, [c])
    requires AfterCommit(s.store, Batch(s, [c])).result.Ok?
    ensures var a, t := At(s, c).agg, Committed(s, [c]);
      && At(t, c) == Saving(a.(entity := MarkedCommitted(a.entity)))
      && Log(t.store, a.entity.id) == a.entity.events
      && t.snapshots == s.snapshots
    ensures forall d: nat :: d != c ==> At(Committed(s, [c]), d) == At(s, d)
  {
    CommitStoresHistory(sn, s, [c], 0);
    CommittedClient(s, [c], 0);
  }

  lemma OtherLogsStay<S>(s: State<S>, c: nat, id: string)
    requires At(s, c).Holding? && CanCommit(s, [c]) && id != At(s, c).agg.entity.id
    ensures Log(Committed(s, [c]).store, id) == Log(s.store, id)
  {
    AppendAllLog(s.store, Batch(s, [c]), id);
    NewEventsForDistinct(Batch(s, [c]), id);
  }

  lemma CommitIsCommitted<S>(sn: Snapshottable<S>, s: State<S>, cs: seq<nat>)
    requires CanCommit(s, cs)
    ensures After(sn, s, Commit(cs)) == Committed(s, cs)
  {
  }

  /** What one aggregate and the store look like after its commit, and that is all. */
  ghost predicate CommittedOnly<S>(s: State<S>, t: State<S>, c: nat)
    requires At(s, c).Holding?
  {
    var a := At(s, c).agg;
    && t.snapshots == s.snapshots
    && At(t, c) == Saving(a.(entity := MarkedCommitted(a.entity)))
    && Log(t.store, a.entity.id) == a.entity.events
    && (forall id :: id != a.entity.id ==> Log(t.store, id) == Log(s.store, id))
    && forall d: nat :: d != c ==> At(t, d) == At(s, d)
  }

  lemma CommitAloneEffect<S>(sn: Snapshottable<S>, s: State<S>, c: nat)
    requires Consistent(sn, s) && At(s, c).Holding? && CanCommit(s, [c])
    requires AfterCommit(s.store, Batch(s, [c])).result.Ok?
    ensures CommittedOnly(s, Committed(s, [c]), c)
  {
    CommittedAlone(sn, s, c);
    forall id | id != At(s, c).agg.entity.id ensures Log(Committed(s, [c]).store, id) == Log(s.store, id) {
      OtherLogsStay(s, c, id);
    }
  }

  /** A commit of one aggregate that is as far as its log. */
  lemma CommitAlone<S(!new)>(sn: Snapshottable<S>, actions: seq<Action>, s: State<S>, c: nat) returns (more: seq<Action>, t: State<S>)
    requires Lawful(sn) && Arrives(sn, actions, s) && At(s, c).Holding?
    requires |Log(s.store, At(s, c).agg.entity.id)| == At(s, c).agg.entity.committedVersion
    ensures Arrives(sn, more, t) && CommittedOnly(s, t, c)
  {
    CanCommitAlone(sn, s, c);
    CommitAloneEffect(sn, s, c);
    CommitIsCommitted(sn, s, [c]);
    more, t := OneMore(sn, actions, s, Commit([c]));
  }

  lemma FetchReadFinish<S>(sn: Snapshottable<S>, s: State<S>, c: nat, id: string)
    requires id in s.store && s.snapshots == map[]
    ensures var t := After(sn, After(sn, After(sn, s, Fetch(c, id)), ReadSnapshot(c)), Finish(c));
      OnlyClient(s, t, c) && At(t, c) == Finished(sn, Loaded(id, s.store[id]), None)
  {
    var e := Loaded(id, s.store[id]);
    assert After(sn, s, Fetch(c, id)) == Put(s, c, Fetched(e));
    assert After(sn, Put(s, c, Fetched(e)), ReadSnapshot(c)) == Put(Put(s, c, Fetched(e)), c, Ready(e, None));
  }

  /** A client that loads what another has just committed, with no snapshot around. */
  lemma LoadAlone<S(!new)>(sn: Snapshottable<S>, actions: seq<Action>, s: State<S>, writer: nat, c: nat) returns (more: seq<Action>, t: State<S>)
    requires Lawful(sn) && Arrives(sn, actions, s) && writer != c && At(s, writer).Saving? && s.snapshots == map[]
    requires var e := At(s, writer).agg.entity; e.events != [] && Log(s.store, e.id) == e.events
    ensures Arrives(sn, more, t) && OnlyClient(s, t, c)
    ensures var e := At(s, writer).agg.entity;
      At(t, c).Holding? && At(t, c).agg.entity == Loaded(e.id, e.events)
  {
    var a := At(s, writer).agg;
    assert ClientOk(sn, s.store, At(s, writer));
    FaithfulHydratesBack(sn.spec, a);
    FetchReadFinish(sn, s, c, a.entity.id);
    more, t := OneMore(sn, actions, s, Fetch(c, a.entity.id));
    more, t := OneMore(sn, more, t, ReadSnapshot(c));
    more, t := OneMore(sn, more, t, Finish(c));
  }

  /** Client `c` has committed `v` events of the only log, and has not saved yet. */
  ghost predicate AboutToSave<S>(s: State<S>, c: nat, id: string, v: nat)
  {
    && At(s, c).Saving?
    && var e := At(s, c).agg.entity;
      e.id == id && e.version == v && e.snapshotVersion == 0
  }

  ghost predicate OnlyLog<S>(s: State<S>, id: string, n: nat)
  {
    |Log(s.store, id)| == n && forall x :: x != id ==> Log(s.store, x) == []
  }

  /** The first client commits k events. */
  lemma FirstCommits<S(!new)>(sn: Snapshottable<S>, name: string, args: Payload, id: string, k: nat) returns (actions: seq<Action>, s: State<S>)
    requires Lawful(sn) && k >= 1 && AlwaysAccepted(sn, name, args, id)
    ensures Arrives(sn, actions, s) && AboutToSave(s, 1, id, k) && OnlyLog(s, id, k) && s.snapshots == map[]
    ensures At(s, 1).agg.entity.events == Log(s.store, id)
  {
    var start: State<S> := State(map[], map[], map[]);
    RunKeepsConsistent(sn, start, []);
    actions, s := OneMore(sn, [], start, Create(1));
    actions, s := CommandTimes(sn, actions, s, 1, name, args, id, k);
    assert ClientOk(sn, s.store, At(s, 1));
    actions, s := CommitAlone(sn, actions, s, 1);
  }

  /** The second loads them, and commits k more. */
  lemma SecondOvertakes<S(!new)>(sn: Snapshottable<S>, name: string, args: Payload, id: string, k: nat, actions: seq<Action>, s: State<S>)
    returns (more: seq<Action>, t: State<S>)
    requires Lawful(sn) && k >= 1 && AlwaysAccepted(sn, name, args, id)
    requires Arrives(sn, actions, s) && AboutToSave(s, 1, id, k) && OnlyLog(s, id, k) && s.snapshots == map[]
    requires At(s, 1).agg.entity.events == Log(s.store, id)
    ensures Arrives(sn, more, t) && AboutToSave(t, 1, id, k) && AboutToSave(t, 2, id, 2 * k) && OnlyLog(t, id, 2 * k) && t.snapshots == map[]
  {
    var u;
    more, u := LoadAlone(sn, actions, s, 1, 2);
    more, u := CommandTimes(sn, more, u, 2, name, args, id, k);
    assert ClientOk(sn, u.store, At(u, 2));
    assert At(u, 1) == At(s, 1);
    more, t := CommitAlone(sn, more, u, 2);
    assert At(t, 1) == At(u, 1);
  }

  lemma SavesAtLast<S>(sn: Snapshottable<S>, s: State<S>, id: string, k: nat)
    requires k >= 1 && AboutToSave(s, 1, id, k) && AboutToSave(s, 2, id, 2 * k) && OnlyLog(s, id, 2 * k) && s.snapshots == map[]
    ensures var t := After(sn, s, Save(2, k));
      var u := After(sn, t, Save(1, k));
      && AllWithinLag(t, k) && !WithinLag(u.store, u.snapshots, id, k)
      && StoredVersion(t.snapshots, id) == 2 * k && StoredVersion(u.snapshots, id) == k
  {
    var t := After(sn, s, Save(2, k));
    assert t.store == s.store && StoredVersion(t.snapshots, id) == 2 * k && AboutToSave(t, 1, id, k);
    forall x ensures WithinLag(t.store, t.snapshots, x, k) {
      if x != id { assert Log(s.store, x) == []; }
    }
  }

  /** Two clients, with commit and save as separate steps: the first commits k events and is
      overtaken before its save by the second, which loads them, commits k more and saves.
      When the first saves after all, the stored snapshot goes back to version k, and the
      log is k events ahead of it. */
  lemma LateSaveLosesBound<S(!new)>(sn: Snapshottable<S>, name: string, args: Payload, id: string, k: nat) returns (actions: seq<Action>)
    requires Lawful(sn) && k >= 1 && AlwaysAccepted(sn, name, args, id)
    ensures var s := Run(sn, State(map[], map[], map[]), actions);
      var t := After(sn, s, Save(1, k));
      && AllWithinLag(s, k) && !WithinLag(t.store, t.snapshots, id, k)
      && StoredVersion(s.snapshots, id) == 2 * k && StoredVersion(t.snapshots, id) == k
  {
    var s;
    actions, s := FirstCommits(sn, name, args, id, k);
    actions, s := SecondOvertakes(sn, name, args, id, k, actions, s);
    SavesAtLast(sn, s, id, k);
    actions, s := OneMore(sn, actions, s, Save(2, k));
  }

  // ---- When snapshots are taken ------------------------------------------------------

  /** Client 1 holds the only aggregate, with `n` events, all committed; the last snapshot
      was taken at version `v`. */
  ghost predicate Steady<S>(s: State<S>, id: string, n: nat, v: nat)
  {
    && At(s, 1).Holding?
    && var e := At(s, 1).agg.entity;
      && (n > 0 ==> e.id == id) && e.version == n && e.committedVersion == n && e.snapshotVersion == v
      && |Log(s.store, e.id)| == n && (n == 0 ==> s.store == map[] && s.snapshots == map[])
      && StoredVersion(s.snapshots, id) == v
  }

  lemma CommitAndSaveIs<S>(sn: Snapshottable<S>, s: State<S>, cs: seq<nat>, k: nat)
    requires CanCommit(s, cs)
    ensures After(sn, s, CommitAndSave(cs, k)) == SavedAll(sn, Committed(s, cs), cs, k)
  {
  }

  /** The snapshot decision of client 1 on its own. */
  lemma SavedAlone<S>(sn: Snapshottable<S>, s: State<S>, id: string, n: nat, v: nat, k: nat)
    requires At(s, 1).Saving? && n > 0 && StoredVersion(s.snapshots, id) == v
    requires var e := At(s, 1).agg.entity;
      e.id == id && e.version == n && e.committedVersion == n && e.snapshotVersion == v && |Log(s.store, id)| == n
    ensures Steady(SavedAll(sn, s, [1], k), id, n, if n >= v + k then n else v)
  {
    SavedAllMember(sn, s, [1], k, 0);
  }

  /** A commit with its snapshot decision: the snapshot is taken exactly when the aggregate
      is k or more events past the last one. */
  lemma CommitAndSaveAlone<S(!new)>(sn: Snapshottable<S>, s: State<S>, id: string, n: nat, v: nat, k: nat)
    requires Consistent(sn, s) && At(s, 1).Holding? && n > 0 && StoredVersion(s.snapshots, id) == v
    requires var e := At(s, 1).agg.entity;
      e.id == id && e.version == n && e.snapshotVersion == v && |Log(s.store, id)| == e.committedVersion
    ensures Steady(After(sn, s, CommitAndSave([1], k)), id, n, if n >= v + k then n else v)
  {
    assert ClientOk(sn, s.store, At(s, 1));
    CanCommitAlone(sn, s, 1);
    CommittedAlone(sn, s, 1);
    CommitAndSaveIs(sn, s, [1], k);
    SavedAlone(sn, Committed(s, [1]), id, n, v, k);
  }

  /** An aggregate that commits event by event gets a snapshot at every k-th event and at no
      other: after n commits the last one is at the greatest multiple of k up to n. */
  lemma {:induction false} SnapshotAtEveryMultiple<S(!new)>(sn: Snapshottable<S>, name: string, args: Payload, id: string, k: nat, n: nat)
    returns (actions: seq<Action>, s: State<S>, q: nat)
    requires Lawful(sn) && k >= 1 && AlwaysAccepted(sn, name, args, id)
    ensures Arrives(sn, actions, s) && Steady(s, id, n, q * k) && q * k <= n < q * k + k
    ensures |actions| == 1 + 2 * n
  {
    if n == 0 {
      var start: State<S> := State(map[], map[], map[]);
      RunKeepsConsistent(sn, start, []);
      actions, s := OneMore(sn, [], start, Create(1));
      q := 0;
    } else {
      var before, t;
      before, t, q := SnapshotAtEveryMultiple(sn, name, args, id, k, n - 1);
      actions, s := CommandAndSave(sn, before, t, name, args, id, n, q * k, k);
      if n == q * k + k {
        assert (q + 1) * k == q * k + k;
        q := q + 1;
      }
    }
  }

  lemma CommandAndSave<S(!new)>(sn: Snapshottable<S>, before: seq<Action>, t: State<S>, name: string, args: Payload, id: string, n: nat, v: nat, k: nat)
    returns (actions: seq<Action>, s: State<S>)
    requires Lawful(sn) && AlwaysAccepted(sn, name, args, id) && n > 0 && Arrives(sn, before, t) && Steady(t, id, n - 1, v)
    ensures Arrives(sn, actions, s) && Steady(s, id, n, if n >= v + k then n else v) && |actions| == |before| + 2
  {
    CommandOnce(sn, t, 1, name, args, id);
    actions, s := OneMore(sn, before, t, Action.Command(1, name, args));
    CommitAndSaveAlone(sn, s, id, n, v, k);
    actions, s := OneMore(sn, actions, s, CommitAndSave([1], k));
  }
}
