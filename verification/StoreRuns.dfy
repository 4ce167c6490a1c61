/** Runs of any number of clients that create, load, change and commit possibly stale
    entities against one event store, interleaved with the outbox calls that extend a
    stored log in place. A client holds its entities under handles; a client with several
    entities owns several handles. */
module StoreRuns {
  import opened Basics
  import opened Events
  import opened Entities
  import opened EventStore

  datatype State = State(store: Store, held: map<nat, ValidEntity>)

  datatype Step =
    | Create(handle: nat, id: string)
    | Load(handle: nat, id: string)
    | Rename(handle: nat, id: string)
    | Digest(handle: nat, name: string, version: nat, payload: Payload)
    | Commit(handles: seq<nat>)
    | InPlace(id: string, name: string, payload: Payload)

  function Batch(s: State, handles: seq<nat>): seq<ValidEntity>
    requires forall i :: 0 <= i < |handles| ==> handles[i] in s.held
  {
    seq(|handles|, i requires 0 <= i < |handles| => s.held[handles[i]])
  }

  /** `set_id` is not called once events are committed, and the entities of one commit are
      distinct objects with distinct ids; nothing else is asked of the clients. */
  ghost predicate Enabled(s: State, step: Step)
  {
    match step
    case Create(_, _) => true
    case Load(_, id) => id in s.store
    case Rename(h, _) => h in s.held && s.held[h].committedVersion == 0
    case Digest(h, _, _, _) => h in s.held
    case Commit(hs) =>
      && (forall i :: 0 <= i < |hs| ==> hs[i] in s.held)
      && (forall i, j :: 0 <= i < j < |hs| ==> hs[i] != hs[j])
      && DistinctIds(Batch(s, hs))
    case InPlace(id, _, _) => id in s.store
  }

  /** A step that is not enabled does nothing. */
  ghost function After(s: State, step: Step): State
  {
    if !Enabled(s, step) then s else
    match step
    case Create(h, id) => s.(held := s.held[h := Blank(id)])
    case Load(h, id) => s.(held := s.held[h := Loaded(id, s.store[id])])
    case Rename(h, id) => s.(held := s.held[h := s.held[h].(id := id)])
    case Digest(h, name, version, payload) => s.(held := s.held[h := Digested(s.held[h], name, version, payload)])
    case Commit(hs) =>
      var outcome := AfterCommit(s.store, Batch(s, hs));
      if outcome.result.Ok? then State(outcome.store, MarkAll(s.held, hs)) else s
    case InPlace(id, name, payload) =>
      s.(store := s.store[id := Digested(Loaded(id, s.store[id]), name, 1, payload).events])
  }

  function MarkAll(held: map<nat, ValidEntity>, handles: seq<nat>): map<nat, ValidEntity>
  {
    map h | h in held :: if h in handles then MarkedCommitted(held[h]) else held[h]
  }

  ghost function Run(s: State, steps: seq<Step>): State
  {
    if steps == [] then s else After(Run(s, steps[..|steps| - 1]), steps[|steps| - 1])
  }

  // ---- The invariant -----------------------------------------------------------------

  /** A held entity agrees with the store on everything it regards as committed. */
  ghost predicate Tracks(store: Store, e: ValidEntity)
  {
    Numbered(e.events) && e.events[..e.committedVersion] <= Log(store, e.id)
  }

  ghost predicate Consistent(s: State)
  {
    && (forall id :: id in s.store ==> Numbered(s.store[id]))
    && (forall h :: h in s.held ==> Tracks(s.store, s.held[h]))
  }

  lemma StepOnlyGrowsLogs(s: State, step: Step, id: string)
    ensures Log(s.store, id) <= Log(After(s, step).store, id)
  {
    if Enabled(s, step) && step.Commit? && AfterCommit(s.store, Batch(s, step.handles)).result.Ok? {
      AppendAllLog(s.store, Batch(s, step.handles), id);
    }
  }

  lemma GrowthKeepsTracking(store: Store, store': Store, e: ValidEntity)
    requires Tracks(store, e) && Log(store, e.id) <= Log(store', e.id)
    ensures Tracks(store', e)
  {
  }

  lemma CommitLeavesWholeHistory(s: State, handles: seq<nat>, i: nat)
    requires Consistent(s) && Enabled(s, Commit(handles)) && i < |handles|
    requires AfterCommit(s.store, Batch(s, handles)).result.Ok?
    ensures var e := s.held[handles[i]]; Log(After(s, Commit(handles)).store, e.id) == e.events
  {
    CommitStoresWholeHistory(s.store, Batch(s, handles), i);
  }

  lemma CommitKeepsStoreNumbered(s: State, handles: seq<nat>, id: string)
    requires Consistent(s) && Enabled(s, Commit(handles))
    requires AfterCommit(s.store, Batch(s, handles)).result.Ok?
    ensures Numbered(Log(After(s, Commit(handles)).store, id))
  {
    var batch := Batch(s, handles);
    if i :| 0 <= i < |handles| && batch[i].id == id {
      CommitLeavesWholeHistory(s, handles, i);
    } else {
      AppendAllLog(s.store, batch, id);
      NewEventsForDistinct(batch, id);
    }
  }

  lemma CommitKeepsHeldTracked(s: State, handles: seq<nat>, h: nat)
    requires Consistent(s) && Enabled(s, Commit(handles)) && h in s.held
    requires AfterCommit(s.store, Batch(s, handles)).result.Ok?
    ensures var t := After(s, Commit(handles)); Tracks(t.store, t.held[h])
  {
    var t := After(s, Commit(handles));
    if h in handles {
      var i :| 0 <= i < |handles| && handles[i] == h;
      CommitLeavesWholeHistory(s, handles, i);
    } else {
      StepOnlyGrowsLogs(s, Commit(handles), s.held[h].id);
      GrowthKeepsTracking(s.store, t.store, s.held[h]);
    }
  }

  lemma CommitKeepsConsistent(s: State, handles: seq<nat>)
    requires Consistent(s) && Enabled(s, Commit(handles))
    requires AfterCommit(s.store, Batch(s, handles)).result.Ok?
    ensures Consistent(After(s, Commit(handles)))
  {
    var t := After(s, Commit(handles));
    forall id | id in t.store ensures Numbered(t.store[id]) {
      CommitKeepsStoreNumbered(s, handles, id);
    }
    forall h | h in t.held ensures Tracks(t.store, t.held[h]) {
      CommitKeepsHeldTracked(s, handles, h);
    }
  }

  lemma DigestKeepsConsistent(s: State, h: nat, name: string, version: nat, payload: Payload)
    requires Consistent(s) && h in s.held
    ensures Consistent(After(s, Digest(h, name, version, payload)))
  {
    var e := s.held[h];
    DigestExtendsNewEvents(e, name, version, payload);
    assert Digested(e, name, version, payload).events[..e.committedVersion] == e.events[..e.committedVersion];
  }

  lemma InPlaceKeepsConsistent(s: State, id: string, name: string, payload: Payload)
    requires Consistent(s) && id in s.store
    ensures Consistent(After(s, InPlace(id, name, payload)))
  {
    var t := After(s, InPlace(id, name, payload));
    forall h | h in s.held ensures Tracks(t.store, t.held[h]) {
      StepOnlyGrowsLogs(s, InPlace(id, name, payload), s.held[h].id);
      GrowthKeepsTracking(s.store, t.store, s.held[h]);
    }
  }

  lemma StepKeepsConsistent(s: State, step: Step)
    requires Consistent(s)
    ensures Consistent(After(s, step))
  {
    if Enabled(s, step) {
      match step {
        case Commit(hs) =>
          if AfterCommit(s.store, Batch(s, hs)).result.Ok? {
            CommitKeepsConsistent(s, hs);
          }
        case Digest(h, name, version, payload) => DigestKeepsConsistent(s, h, name, version, payload);
        case InPlace(id, name, payload) => InPlaceKeepsConsistent(s, id, name, payload);
        case Rename(_, _) =>
        case Create(_, _) =>
        case Load(_, _) =>
      }
    }
  }

  // ---- Main results ------------------------------------------------------------------

  /** In every reachable state each stored log is numbered 1..n and every held entity
      agrees with the store on its committed events; logs have only grown by appending. */
  lemma {:induction false} RunsKeepLogsConsistent(s: State, steps: seq<Step>, id: string)
    requires Consistent(s)
    ensures Consistent(Run(s, steps))
    ensures Log(s.store, id) <= Log(Run(s, steps).store, id)
  {
    if steps != [] {
      var front, last := steps[..|steps| - 1], steps[|steps| - 1];
      RunsKeepLogsConsistent(s, front, id);
      StepKeepsConsistent(Run(s, front), last);
      StepOnlyGrowsLogs(Run(s, front), last, id);
    }
  }

  /** Whenever, at the end of any run, a commit returns Ok, the stored log of each of its
      entities is that client's whole event list. */
  lemma CommittedLogIsClientHistory(s: State, steps: seq<Step>, handles: seq<nat>, i: nat)
    requires Consistent(s) && i < |handles|
    requires var t := Run(s, steps);
      Enabled(t, Commit(handles)) && AfterCommit(t.store, Batch(t, handles)).result.Ok?
    ensures var t := Run(s, steps);
      var e := t.held[handles[i]];
      Log(After(t, Commit(handles)).store, e.id) == e.events
  {
    RunsKeepLogsConsistent(s, steps, "");
    CommitLeavesWholeHistory(Run(s, steps), handles, i);
  }

  /** The step gives handle `h` a new entity or a new id. */
  predicate Replaces(step: Step, h: nat)
  {
    match step
    case Create(handle, _) => handle == h
    case Load(handle, _) => handle == h
    case Rename(handle, _) => handle == h
    case _ => false
  }

  ghost predicate Stale(s: State, h: nat)
  {
    h in s.held && s.held[h].committedVersion < |Log(s.store, s.held[h].id)|
  }

  lemma StaleCommitFails(s: State, handles: seq<nat>, h: nat)
    requires Stale(s, h) && h in handles && Enabled(s, Commit(handles))
    ensures After(s, Commit(handles)) == s
  {
    CommitSucceedsIff(s.store, Batch(s, handles));
    var i :| 0 <= i < |handles| && handles[i] == h;
    assert !UpToDate(s.store, Batch(s, handles)[i]);
  }

  lemma StaysStale(s: State, step: Step, h: nat)
    requires Stale(s, h) && !Replaces(step, h)
    ensures var t := After(s, step); Stale(t, h) && t.held[h].id == s.held[h].id
  {
    StepOnlyGrowsLogs(s, step, s.held[h].id);
    if step.Commit? && Enabled(s, step) && h in step.handles {
      StaleCommitFails(s, step.handles, h);
    }
  }

  /** Losing a race is final: once the log has moved past an entity, every later commit
      that contains it fails and changes nothing, however often it is retried. */
  lemma {:induction false} StaleForever(s: State, steps: seq<Step>, h: nat)
    requires Stale(s, h)
    requires forall i :: 0 <= i < |steps| ==> !Replaces(steps[i], h)
    ensures var t := Run(s, steps); Stale(t, h) && t.held[h].id == s.held[h].id
    ensures forall handles :: h in handles && Enabled(Run(s, steps), Commit(handles)) ==>
      After(Run(s, steps), Commit(handles)) == Run(s, steps)
  {
    if steps != [] {
      var front := steps[..|steps| - 1];
      StaleForever(s, front, h);
      StaysStale(Run(s, front), steps[|steps| - 1], h);
    }
    var t := Run(s, steps);
    forall handles | h in handles && Enabled(t, Commit(handles)) ensures After(t, Commit(handles)) == t {
      StaleCommitFails(t, handles, h);
    }
  }

  /** What one step adds to the log of `id`. */
  ghost function Accepted(s: State, step: Step, id: string): seq<EventRecord>
  {
    if !Enabled(s, step) then [] else
    match step
    case Commit(hs) =>
      if AfterCommit(s.store, Batch(s, hs)).result.Ok? then NewEventsFor(Batch(s, hs), id) else []
    case InPlace(target, name, payload) =>
      if target == id then Digested(Loaded(id, s.store[id]), name, 1, payload).events[|s.store[id]|..] else []
    case _ => []
  }

  ghost function History(s: State, steps: seq<Step>, id: string): seq<seq<EventRecord>>
  {
    if steps == [] then []
    else
      var front := steps[..|steps| - 1];
      History(s, front, id) + [Accepted(Run(s, front), steps[|steps| - 1], id)]
  }

  lemma StepAppendsAccepted(s: State, step: Step, id: string)
    ensures Log(After(s, step).store, id) == Log(s.store, id) + Accepted(s, step, id)
  {
    if Enabled(s, step) && step.Commit? && AfterCommit(s.store, Batch(s, step.handles)).result.Ok? {
      AppendAllLog(s.store, Batch(s, step.handles), id);
    }
  }

  /** Conservation: a log holds exactly the batches of the commits that succeeded and the
      in-place events, once each, in the order in which they happened. */
  lemma {:induction false} LogIsAcceptedBatches(s: State, steps: seq<Step>, id: string)
    ensures Log(Run(s, steps).store, id) == Log(s.store, id) + Flatten(History(s, steps, id))
  {
    if steps != [] {
      var front, last := steps[..|steps| - 1], steps[|steps| - 1];
      LogIsAcceptedBatches(s, front, id);
      var added := Accepted(Run(s, front), last, id);
      StepAppendsAccepted(Run(s, front), last, id);
      FlattenSnoc(History(s, front, id), added);
      ConcatAssociates(Log(s.store, id), Flatten(History(s, front, id)), added);
    }
  }

  /** The step successfully commits a never-committed entity with events under `id`. */
  ghost predicate Creates(s: State, step: Step, id: string)
  {
    Enabled(s, step) && step.Commit? && AfterCommit(s.store, Batch(s, step.handles)).result.Ok?
    && exists h :: h in step.handles && s.held[h].id == id && s.held[h].committedVersion == 0 && s.held[h].NewEvents() != []
  }

  ghost function Creations(s: State, steps: seq<Step>, id: string): nat
  {
    if steps == [] then 0
    else
      var front := steps[..|steps| - 1];
      Creations(s, front, id) + if Creates(Run(s, front), steps[|steps| - 1], id) then 1 else 0
  }

  lemma CreationFillsEmptyLog(s: State, step: Step, id: string)
    requires Creates(s, step, id)
    ensures Log(s.store, id) == [] && Log(After(s, step).store, id) != []
  {
    var batch := Batch(s, step.handles);
    var h :| h in step.handles && s.held[h].id == id && s.held[h].committedVersion == 0 && s.held[h].NewEvents() != [];
    var i :| 0 <= i < |step.handles| && step.handles[i] == h;
    CommitSucceedsIff(s.store, batch);
    assert UpToDate(s.store, batch[i]);
    AppendAllLog(s.store, batch, id);
    NewEventsForDistinct(batch, id);
  }

  /** An id is created at most once in any run, and never again once its log has events;
      this is what keeps an outbox message from being enqueued twice under one id. */
  lemma {:induction false} CreatedAtMostOnce(s: State, steps: seq<Step>, id: string)
    ensures Creations(s, steps, id) <= 1
    ensures Creations(s, steps, id) == 1 ==> Log(s.store, id) == [] && Log(Run(s, steps).store, id) != []
  {
    if steps != [] {
      var front, last := steps[..|steps| - 1], steps[|steps| - 1];
      CreatedAtMostOnce(s, front, id);
      StepOnlyGrowsLogs(Run(s, front), last, id);
      LogIsAcceptedBatches(s, front, id);
      if Creates(Run(s, front), last, id) {
        CreationFillsEmptyLog(Run(s, front), last, id);
      }
    }
  }
}
