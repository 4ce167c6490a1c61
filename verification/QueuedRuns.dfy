/** Runs of any number of clients of one `QueuedRepository` (src/queued_repo/repository.rs)
    that follow the discipline get, digest, commit or abort: one `get` call per round, which
    locks all its ids in order; every committed id was got in this round; what is not
    committed is aborted. Locks are taken and handed back one at a time, so the steps of
    different clients interleave everywhere. */
module QueuedRuns {
  import opened Basics
  import opened Events
  import opened Entities
  import opened EventStore
  import opened LockOrder

  /** A client: ids locked and still to be locked by a running `get`, the entities it works
      on, and the ids a finished commit still has to unlock. */
  datatype Client = Client(got: seq<string>, todo: seq<string>, entities: map<string, ValidEntity>, unlocking: seq<string>)

  const IDLE := Client([], [], map[], [])

  datatype State = State(store: Store, locks: map<string, nat>, clients: map<nat, Client>)

  datatype Step =
    | Get(client: nat, ids: seq<string>)
    | Acquire(client: nat)
    | Load(client: nat)
    | Digest(client: nat, id: string, name: string, version: nat, payload: Payload)
    | Commit(client: nat, ids: seq<string>)
    | Abort(client: nat, id: string)
    | Unlock(client: nat)

  /** An entity as `get` leaves it with the client: the stored one, or a new one. */
  function Fetched(store: Store, id: string): ValidEntity
  {
    if id in store then Loaded(id, store[id]) else Blank(id)
  }

  function Batch(entities: map<string, ValidEntity>, ids: seq<string>): seq<ValidEntity>
    requires forall i :: 0 <= i < |ids| ==> ids[i] in entities
  {
    seq(|ids|, i requires 0 <= i < |ids| => entities[ids[i]])
  }

  ghost predicate Enabled(s: State, step: Step)
  {
    step.client in s.clients &&
    var c := s.clients[step.client];
    match step
    case Get(_, _) => c == IDLE
    case Acquire(_) => c.todo != [] && c.todo[0] !in s.locks
    case Load(_) => c.todo == [] && c.got != []
    case Digest(_, id, _, _, _) => id in c.entities
    case Commit(_, ids) => c.unlocking == [] && NoRepeats(ids) && forall i :: 0 <= i < |ids| ==> ids[i] in c.entities
    case Abort(_, id) => c.unlocking == [] && id in c.entities
    case Unlock(_) => c.unlocking != []
  }

  ghost predicate Accepted(s: State, step: Step)
  {
    Enabled(s, step) && step.Commit? && AfterCommit(s.store, Batch(s.clients[step.client].entities, step.ids)).result.Ok?
  }

  /** `commit` and `abort` unlock without asking who holds the lock. */
  function WithoutLock(locks: map<string, nat>, id: string): map<string, nat>
  {
    locks - {id}
  }

  function Dropped(entities: map<string, ValidEntity>, ids: seq<string>): map<string, ValidEntity>
  {
    map id | id in entities && id !in ids :: entities[id]
  }

  /** A step that is not enabled does nothing, and neither does a refused commit. */
  ghost function After(s: State, step: Step): State
  {
    if !Enabled(s, step) then s else
    var c := s.clients[step.client];
    match step
    case Get(k, ids) => s.(clients := s.clients[k := c.(todo := SortDedup(ids))])
    case Acquire(k) =>
      s.(locks := s.locks[c.todo[0] := k], clients := s.clients[k := c.(got := c.got + [c.todo[0]], todo := c.todo[1..])])
    case Load(k) =>
      s.(clients := s.clients[k := c.(got := [], entities := map id | id in c.got :: Fetched(s.store, id))])
    case Digest(k, id, name, version, payload) =>
      s.(clients := s.clients[k := c.(entities := c.entities[id := Digested(c.entities[id], name, version, payload)])])
    case Commit(k, ids) =>
      if Accepted(s, step) then
        s.(store := AfterCommit(s.store, Batch(c.entities, ids)).store,
           clients := s.clients[k := c.(entities := Dropped(c.entities, ids), unlocking := ids)])
      else s
    case Abort(k, id) =>
      s.(locks := WithoutLock(s.locks, id), clients := s.clients[k := c.(entities := Dropped(c.entities, [id]))])
    case Unlock(k) =>
      s.(locks := WithoutLock(s.locks, c.unlocking[0]), clients := s.clients[k := c.(unlocking := c.unlocking[1..])])
  }

  ghost function Run(s: State, steps: seq<Step>): State
  {
    if steps == [] then s else After(Run(s, steps[..|steps| - 1]), steps[|steps| - 1])
  }

  predicate Initial(s: State)
  {
    s.locks == map[] && forall k :: k in s.clients ==> s.clients[k] == IDLE
  }

  // ---- The invariant -----------------------------------------------------------------

  predicate Holds(c: Client, id: string)
  {
    id in c.got || id in c.entities || id in c.unlocking
  }

  /** The locks of a client's ids are held by that client, and by no other. */
  ghost predicate LockOk(s: State, id: string)
  {
    forall k :: k in s.clients ==> (Holds(s.clients[k], id) <==> id in s.locks && s.locks[id] == k)
  }

  /** A client works in one phase at a time, and locks in increasing order. */
  ghost predicate Orderly(c: Client)
  {
    && Increasing(c.got + c.todo)
    && (c.got + c.todo != [] ==> c.entities == map[] && c.unlocking == [])
    && NoRepeats(c.unlocking)
    && forall id :: id in c.entities ==> id !in c.unlocking
  }

  /** The entity is exactly as far as the store. */
  ghost predicate Current(store: Store, e: ValidEntity, id: string)
  {
    e.id == id && e.events[..e.committedVersion] == Log(store, id) && !e.replaying
  }

  ghost predicate ClientOk(s: State, k: nat)
  {
    k in s.clients ==>
      && Orderly(s.clients[k])
      && forall id :: id in s.clients[k].entities ==> Current(s.store, s.clients[k].entities[id], id)
  }

  ghost predicate Inv(s: State)
  {
    (forall id :: LockOk(s, id)) && (forall k :: ClientOk(s, k)) && forall id :: id in s.locks ==> s.locks[id] in s.clients
  }

  lemma InitialIsConsistent(s: State)
    requires Initial(s)
    ensures Inv(s)
  {
  }

  /** Only client `k` changes, the store does not, and its locks follow what it holds. */
  lemma OneClientKeepsInv(s: State, t: State, k: nat)
    requires Inv(s) && k in s.clients && k in t.clients && t.clients == s.clients[k := t.clients[k]]
    requires forall j, id :: j in s.clients && j != k && id in s.clients[j].entities ==> Log(t.store, id) == Log(s.store, id)
    requires forall id :: id in s.locks && s.locks[id] != k ==> id in t.locks && t.locks[id] == s.locks[id]
    requires forall id :: id in t.locks && t.locks[id] != k ==> id in s.locks && s.locks[id] == t.locks[id]
    requires forall id :: Holds(t.clients[k], id) <==> id in t.locks && t.locks[id] == k
    requires ClientOk(t, k)
    ensures Inv(t)
  {
    forall id ensures LockOk(t, id) {
      assert LockOk(s, id);
    }
    forall j ensures ClientOk(t, j) {
      assert ClientOk(s, j);
    }
  }

  lemma GetKeepsInv(s: State, k: nat, ids: seq<string>)
    requires Inv(s) && Enabled(s, Get(k, ids))
    ensures Inv(After(s, Get(k, ids)))
  {
    var t := After(s, Get(k, ids));
    SortDedupIncreases(ids);
    assert [] + SortDedup(ids) == SortDedup(ids);
    forall id ensures Holds(t.clients[k], id) <==> id in t.locks && t.locks[id] == k {
      assert LockOk(s, id);
    }
    OneClientKeepsInv(s, t, k);
  }

  lemma AcquireKeepsInv(s: State, k: nat)
    requires Inv(s) && Enabled(s, Acquire(k))
    ensures Inv(After(s, Acquire(k)))
  {
    var t, c := After(s, Acquire(k)), s.clients[k];
    assert ClientOk(s, k);
    assert (c.got + [c.todo[0]]) + c.todo[1..] == c.got + c.todo;
    forall id ensures Holds(t.clients[k], id) <==> id in t.locks && t.locks[id] == k {
      assert LockOk(s, id);
    }
    OneClientKeepsInv(s, t, k);
  }

  lemma LoadKeepsInv(s: State, k: nat)
    requires Inv(s) && Enabled(s, Load(k))
    ensures Inv(After(s, Load(k)))
  {
    var t, c := After(s, Load(k)), s.clients[k];
    assert ClientOk(s, k);
    assert c.got + c.todo == c.got;
    forall id ensures Holds(t.clients[k], id) <==> id in t.locks && t.locks[id] == k {
      assert LockOk(s, id);
    }
    OneClientKeepsInv(s, t, k);
  }

  lemma DigestKeepsInv(s: State, k: nat, id: string, name: string, version: nat, payload: Payload)
    requires Inv(s) && Enabled(s, Digest(k, id, name, version, payload))
    ensures Inv(After(s, Digest(k, id, name, version, payload)))
  {
    var t, e := After(s, Digest(k, id, name, version, payload)), s.clients[k].entities[id];
    assert ClientOk(s, k);
    DigestExtendsNewEvents(e, name, version, payload);
    assert t.clients[k].entities[id].events[..e.committedVersion] == e.events[..e.committedVersion];
    forall x ensures Holds(t.clients[k], x) <==> x in t.locks && t.locks[x] == k {
      assert LockOk(s, x);
    }
    OneClientKeepsInv(s, t, k);
  }

  lemma AbortKeepsInv(s: State, k: nat, id: string)
    requires Inv(s) && Enabled(s, Abort(k, id))
    ensures Inv(After(s, Abort(k, id)))
  {
    var t := After(s, Abort(k, id));
    assert ClientOk(s, k) && LockOk(s, id);
    forall x ensures Holds(t.clients[k], x) <==> x in t.locks && t.locks[x] == k {
      assert LockOk(s, x);
    }
    OneClientKeepsInv(s, t, k);
  }

  lemma UnlockKeepsInv(s: State, k: nat)
    requires Inv(s) && Enabled(s, Unlock(k))
    ensures Inv(After(s, Unlock(k)))
  {
    var t := After(s, Unlock(k));
    assert ClientOk(s, k) && LockOk(s, s.clients[k].unlocking[0]);
    forall x ensures Holds(t.clients[k], x) <==> x in t.locks && t.locks[x] == k {
      assert LockOk(s, x);
    }
    OneClientKeepsInv(s, t, k);
  }

  // ---- Commits -----------------------------------------------------------------------

  lemma BatchFacts(s: State, k: nat, ids: seq<string>)
    requires Inv(s) && Enabled(s, Commit(k, ids))
    ensures var batch := Batch(s.clients[k].entities, ids);
      && AllValid(batch) && DistinctIds(batch)
      && (forall i :: 0 <= i < |ids| ==> batch[i].id == ids[i] && UpToDate(s.store, batch[i]))
  {
    assert ClientOk(s, k);
    var batch := Batch(s.clients[k].entities, ids);
    forall i | 0 <= i < |ids| ensures batch[i].id == ids[i] && UpToDate(s.store, batch[i]) {
      assert Current(s.store, s.clients[k].entities[ids[i]], ids[i]);
      assert |batch[i].events[..batch[i].committedVersion]| == batch[i].committedVersion;
    }
  }

  lemma CommitIsAccepted(s: State, k: nat, ids: seq<string>)
    requires Inv(s) && Enabled(s, Commit(k, ids))
    ensures Accepted(s, Commit(k, ids))
    ensures After(s, Commit(k, ids)).store == AppendAll(s.store, Batch(s.clients[k].entities, ids))
  {
    BatchFacts(s, k, ids);
    UpToDateCommits(s.store, Batch(s.clients[k].entities, ids));
  }

  lemma EntitiesCarryTheirIds(s: State, k: nat)
    requires Inv(s) && k in s.clients
    ensures forall id :: id in s.clients[k].entities ==> s.clients[k].entities[id].id == id
  {
    assert ClientOk(s, k);
  }

  lemma CommittedEvents(entities: map<string, ValidEntity>, ids: seq<string>, id: string)
    requires NoRepeats(ids) && forall i :: 0 <= i < |ids| ==> ids[i] in entities && entities[ids[i]].id == ids[i]
    ensures NewEventsFor(Batch(entities, ids), id) == if id in ids then entities[id].NewEvents() else []
  {
    var batch := Batch(entities, ids);
    NewEventsForDistinct(batch, id);
    if id in ids {
      var i :| 0 <= i < |ids| && ids[i] == id;
      assert batch[i].id == id;
    }
  }

  lemma CommittedLogOf(store: Store, entities: map<string, ValidEntity>, ids: seq<string>, id: string)
    requires NoRepeats(ids) && forall i :: 0 <= i < |ids| ==> ids[i] in entities && entities[ids[i]].id == ids[i]
    ensures Log(AppendAll(store, Batch(entities, ids)), id) == Log(store, id) + if id in ids then entities[id].NewEvents() else []
  {
    CommittedEvents(entities, ids, id);
    AppendAllLog(store, Batch(entities, ids), id);
  }

  /** What a commit does to the log of `id`. */
  lemma CommitLog(s: State, k: nat, ids: seq<string>, id: string)
    requires Inv(s) && Enabled(s, Commit(k, ids))
    ensures Accepted(s, Commit(k, ids))
    ensures Log(After(s, Commit(k, ids)).store, id) ==
      Log(s.store, id) + if id in ids then s.clients[k].entities[id].NewEvents() else []
  {
    var entities := s.clients[k].entities;
    CommitIsAccepted(s, k, ids);
    EntitiesCarryTheirIds(s, k);
    CommittedLogOf(s.store, entities, ids, id);
  }

  /** Nobody else works on what a client commits. */
  lemma CommitLeavesOthers(s: State, k: nat, ids: seq<string>)
    requires Inv(s) && Enabled(s, Commit(k, ids))
    ensures var t := After(s, Commit(k, ids));
      && (forall id :: id !in ids ==> Log(t.store, id) == Log(s.store, id))
      && (forall j, id :: j in s.clients && j != k && id in s.clients[j].entities ==> Log(t.store, id) == Log(s.store, id))
  {
    var t := After(s, Commit(k, ids));
    forall id | id !in ids ensures Log(t.store, id) == Log(s.store, id) {
      CommitLog(s, k, ids, id);
    }
    forall j, id | j in s.clients && j != k && id in s.clients[j].entities ensures id !in ids {
      assert LockOk(s, id);
      assert Holds(s.clients[j], id) && !Holds(s.clients[k], id);
    }
  }

  lemma CommitterStaysOk(s: State, k: nat, ids: seq<string>)
    requires Inv(s) && Enabled(s, Commit(k, ids))
    ensures ClientOk(After(s, Commit(k, ids)), k)
  {
    assert ClientOk(s, k);
    CommitIsAccepted(s, k, ids);
    CommitLeavesOthers(s, k, ids);
  }

  lemma CommitKeepsInv(s: State, k: nat, ids: seq<string>)
    requires Inv(s) && Enabled(s, Commit(k, ids))
    ensures Inv(After(s, Commit(k, ids)))
  {
    var t := After(s, Commit(k, ids));
    CommitIsAccepted(s, k, ids);
    CommitLeavesOthers(s, k, ids);
    CommitterStaysOk(s, k, ids);
    forall x ensures Holds(t.clients[k], x) <==> x in t.locks && t.locks[x] == k {
      assert LockOk(s, x);
    }
    OneClientKeepsInv(s, t, k);
  }

  lemma StepKeepsInv(s: State, step: Step)
    requires Inv(s)
    ensures Inv(After(s, step))
  {
    if Enabled(s, step) {
      match step {
        case Get(k, ids) => GetKeepsInv(s, k, ids);
        case Acquire(k) => AcquireKeepsInv(s, k);
        case Load(k) => LoadKeepsInv(s, k);
        case Digest(k, id, name, version, payload) => DigestKeepsInv(s, k, id, name, version, payload);
        case Commit(k, ids) => CommitKeepsInv(s, k, ids);
        case Abort(k, id) => AbortKeepsInv(s, k, id);
        case Unlock(k) => UnlockKeepsInv(s, k);
      }
    }
  }

  lemma {:induction false} RunKeepsInv(s: State, steps: seq<Step>)
    requires Inv(s)
    ensures Inv(Run(s, steps))
  {
    if steps != [] {
      RunKeepsInv(s, steps[..|steps| - 1]);
      StepKeepsInv(Run(s, steps[..|steps| - 1]), steps[|steps| - 1]);
    }
  }

  /** No commit ever meets a concurrent write, whatever the other clients do. */
  lemma NoConcurrentWrite(s: State, steps: seq<Step>, k: nat, ids: seq<string>)
    requires Initial(s) && Enabled(Run(s, steps), Commit(k, ids))
    ensures Accepted(Run(s, steps), Commit(k, ids))
  {
    InitialIsConsistent(s);
    RunKeepsInv(s, steps);
    CommitLog(Run(s, steps), k, ids, "");
  }

  // ---- The log in lock order ---------------------------------------------------------

  /** One client's hold on a lock: who took it, and what it committed meanwhile. */
  datatype Tenure = Tenure(client: nat, events: seq<EventRecord>)

  /** The committed events are credited to the client's most recent hold. */
  function Credit(tenures: seq<Tenure>, k: nat, events: seq<EventRecord>): seq<Tenure>
  {
    if tenures == [] then []
    else
      var front, last := tenures[..|tenures| - 1], tenures[|tenures| - 1];
      if last.client == k then front + [last.(events := last.events + events)]
      else Credit(front, k, events) + [last]
  }

  ghost predicate Acquires(s: State, step: Step, id: string)
  {
    Enabled(s, step) && step.Acquire? && s.clients[step.client].todo[0] == id
  }

  ghost function NextTenures(s: State, step: Step, id: string, tenures: seq<Tenure>): seq<Tenure>
  {
    if !Enabled(s, step) then tenures
    else if Acquires(s, step, id) then tenures + [Tenure(step.client, [])]
    else if Accepted(s, step) && id in step.ids then Credit(tenures, step.client, s.clients[step.client].entities[id].NewEvents())
    else tenures
  }

  /** The holds on the lock of `id`, in the order in which the lock was acquired. */
  ghost function Tenures(s: State, steps: seq<Step>, id: string): seq<Tenure>
  {
    if steps == [] then []
    else
      var front := steps[..|steps| - 1];
      NextTenures(Run(s, front), steps[|steps| - 1], id, Tenures(s, front, id))
  }

  function Joined(tenures: seq<Tenure>): seq<EventRecord>
  {
    if tenures == [] then [] else Joined(tenures[..|tenures| - 1]) + tenures[|tenures| - 1].events
  }

  lemma JoinedCredit(tenures: seq<Tenure>, k: nat, events: seq<EventRecord>)
    requires tenures != [] && tenures[|tenures| - 1].client == k
    ensures Joined(Credit(tenures, k, events)) == Joined(tenures) + events
  {
    var front := tenures[..|tenures| - 1];
    var credited := Credit(tenures, k, events);
    assert credited[..|credited| - 1] == front;
  }

  lemma OtherStepsKeepLog(s: State, step: Step, id: string)
    requires Inv(s) && !(Accepted(s, step) && id in step.ids)
    ensures Log(After(s, step).store, id) == Log(s.store, id)
  {
    if Enabled(s, step) && step.Commit? {
      CommitLog(s, step.client, step.ids, id);
    }
  }

  /** `tenures` accounts for the log of `id` beyond `base`, and ends with the holder. */
  ghost predicate Accounts(s: State, id: string, base: seq<EventRecord>, tenures: seq<Tenure>)
  {
    && Log(s.store, id) == base + Joined(tenures)
    && (id in s.locks ==> tenures != [] && tenures[|tenures| - 1].client == s.locks[id])
  }

  lemma CommitAccounts(s: State, step: Step, id: string, base: seq<EventRecord>, tenures: seq<Tenure>)
    requires Inv(s) && Accounts(s, id, base, tenures) && Accepted(s, step) && id in step.ids
    ensures Accounts(After(s, step), id, base, NextTenures(s, step, id, tenures))
  {
    assert LockOk(s, id);
    assert Holds(s.clients[step.client], id);
    CommitLog(s, step.client, step.ids, id);
    JoinedCredit(tenures, step.client, s.clients[step.client].entities[id].NewEvents());
  }

  lemma AcquireAccounts(s: State, k: nat, base: seq<EventRecord>, tenures: seq<Tenure>)
    requires Inv(s) && Enabled(s, Acquire(k)) && Accounts(s, s.clients[k].todo[0], base, tenures)
    ensures var id := s.clients[k].todo[0];
      Accounts(After(s, Acquire(k)), id, base, NextTenures(s, Acquire(k), id, tenures))
  {
    assert (tenures + [Tenure(k, [])])[..|tenures|] == tenures;
  }

  /** Only an acquisition gives the lock of `id` to somebody. */
  lemma OtherStepsGiveNoLock(s: State, step: Step, id: string)
    requires !Acquires(s, step, id)
    ensures var t := After(s, step); id in t.locks ==> id in s.locks && t.locks[id] == s.locks[id]
  {
  }

  lemma OtherStepsAccount(s: State, step: Step, id: string, base: seq<EventRecord>, tenures: seq<Tenure>)
    requires Inv(s) && Accounts(s, id, base, tenures)
    requires !(Accepted(s, step) && id in step.ids) && !Acquires(s, step, id)
    ensures Accounts(After(s, step), id, base, NextTenures(s, step, id, tenures))
  {
    OtherStepsKeepLog(s, step, id);
    OtherStepsGiveNoLock(s, step, id);
  }

  lemma StepAccounts(s: State, step: Step, id: string, base: seq<EventRecord>, tenures: seq<Tenure>)
    requires Inv(s) && Accounts(s, id, base, tenures)
    ensures Accounts(After(s, step), id, base, NextTenures(s, step, id, tenures))
  {
    if Accepted(s, step) && id in step.ids {
      CommitAccounts(s, step, id, base, tenures);
    } else if Acquires(s, step, id) {
      AcquireAccounts(s, step.client, base, tenures);
    } else {
      OtherStepsAccount(s, step, id, base, tenures);
    }
  }

  /** The log of an id is the concatenation of what its lock's holders committed, in the
      order in which they got the lock; the last of them is the one who has it now. */
  lemma {:induction false} LogFollowsLockOrder(s: State, steps: seq<Step>, id: string)
    requires Initial(s)
    ensures var t, tenures := Run(s, steps), Tenures(s, steps, id);
      && Log(t.store, id) == Log(s.store, id) + Joined(tenures)
      && (id in t.locks ==> tenures != [] && tenures[|tenures| - 1].client == t.locks[id])
  {
    InitialIsConsistent(s);
    if steps != [] {
      var front := steps[..|steps| - 1];
      LogFollowsLockOrder(s, front, id);
      RunKeepsInv(s, front);
      StepAccounts(Run(s, front), steps[|steps| - 1], id, Log(s.store, id), Tenures(s, front, id));
    }
  }

  // ---- No deadlock -------------------------------------------------------------------

  /** The locked ids that come after `id`, and `id`. */
  ghost function LockedFrom(s: State, id: string): set<string>
  {
    set x | x in s.locks && (x == id || Before(id, x))
  }

  lemma LockedFromShrinks(s: State, a: string, b: string)
    requires a in s.locks && Before(a, b)
    ensures LockedFrom(s, b) < LockedFrom(s, a)
  {
    BeforeIsTotal(a, b);
    forall x | x in LockedFrom(s, b) ensures x in LockedFrom(s, a) {
      if Before(b, x) { BeforeIsTransitive(a, b, x); }
    }
    assert a in LockedFrom(s, a) && a !in LockedFrom(s, b);
  }

  predicate Finishing(step: Step)
  {
    step.Acquire? || step.Load? || step.Abort? || step.Unlock?
  }

  /** What a client that is not waiting for a lock can do to finish its round. */
  lemma NextOwnStep(s: State, k: nat) returns (step: Step)
    requires Inv(s) && k in s.clients && s.clients[k] != IDLE && s.clients[k].todo == []
    ensures step.client == k && Finishing(step) && Enabled(s, step)
  {
    var c := s.clients[k];
    if c.got != [] {
      step := Load(k);
    } else if c.unlocking != [] {
      step := Unlock(k);
    } else {
      assert c.entities != map[];
      var id :| id in c.entities;
      step := Abort(k, id);
    }
  }

  /** Deadlock freedom: whenever a client is in the middle of a round, some client can take
      a step towards the end of its round. The proof follows the holder of the lock that is
      waited for; that holder waits, if at all, for a later id. */
  lemma {:induction false} SomeClientCanStep(s: State, k: nat) returns (step: Step)
    requires Inv(s) && k in s.clients && s.clients[k] != IDLE
    ensures Finishing(step) && Enabled(s, step)
    decreases if s.clients[k].todo == [] then {} else LockedFrom(s, s.clients[k].todo[0])
  {
    var c := s.clients[k];
    if c.todo == [] {
      step := NextOwnStep(s, k);
    } else if c.todo[0] !in s.locks {
      step := Acquire(k);
    } else {
      var wanted := c.todo[0];
      var h := s.locks[wanted];
      assert LockOk(s, wanted) && ClientOk(s, h);
      if s.clients[h].todo == [] {
        step := NextOwnStep(s, h);
      } else {
        HolderWaitsForLater(s.clients[h], wanted);
        LockedFromShrinks(s, wanted, s.clients[h].todo[0]);
        step := SomeClientCanStep(s, h);
      }
    }
  }

  lemma HolderWaitsForLater(c: Client, id: string)
    requires Orderly(c) && Holds(c, id) && c.todo != []
    ensures Before(id, c.todo[0])
  {
    var i :| 0 <= i < |c.got| && c.got[i] == id;
    assert (c.got + c.todo)[i] == id && (c.got + c.todo)[|c.got|] == c.todo[0];
  }

  // ---- Every lock is handed back -----------------------------------------------------

  /** An upper bound on the steps a client still needs to finish its round. */
  function Work(c: Client): nat
  {
    4 * |c.todo| + 3 * |c.got| + 2 * |c.entities| + |c.unlocking|
  }

  function Works(clients: map<nat, Client>): map<nat, nat>
  {
    map k | k in clients :: Work(clients[k])
  }

  ghost function TotalWork(s: State): nat
  {
    Sum(Works(s.clients))
  }

  lemma {:induction false} SetOfSeqIsSmaller(ids: seq<string>)
    ensures |set id | id in ids| <= |ids|
  {
    if ids != [] {
      var rest := ids[1..];
      SetOfSeqIsSmaller(rest);
      assert (set id | id in ids) == (set id | id in rest) + {ids[0]};
    }
  }

  lemma LoadShrinks(c: Client, entities: map<string, ValidEntity>)
    requires c.got != [] && entities.Keys == set id | id in c.got
    ensures Work(c.(got := [], entities := entities)) < Work(c)
  {
    SetOfSeqIsSmaller(c.got);
    assert |entities| == |entities.Keys|;
  }

  lemma AbortShrinks(c: Client, id: string)
    requires id in c.entities
    ensures Work(c.(entities := Dropped(c.entities, [id]))) < Work(c)
  {
    var rest := Dropped(c.entities, [id]);
    assert rest.Keys == c.entities.Keys - {id};
    assert |rest| == |rest.Keys| && |c.entities| == |c.entities.Keys|;
  }

  lemma AcquireShrinks(c: Client)
    requires c.todo != []
    ensures Work(c.(got := c.got + [c.todo[0]], todo := c.todo[1..])) < Work(c)
  {
  }

  lemma ClientWorkShrinks(s: State, step: Step)
    requires Finishing(step) && Enabled(s, step)
    ensures var t := After(s, step);
      step.client in t.clients && Work(t.clients[step.client]) < Work(s.clients[step.client])
  {
    var c := s.clients[step.client];
    match step {
      case Load(k) => LoadShrinks(c, map id | id in c.got :: Fetched(s.store, id));
      case Abort(k, id) => AbortShrinks(c, id);
      case Acquire(k) => AcquireShrinks(c);
      case Unlock(k) =>
    }
  }

  lemma OthersKeepWorking(s: State, step: Step)
    requires Enabled(s, step)
    ensures After(s, step).clients.Keys == s.clients.Keys
    ensures forall j :: j in s.clients && j != step.client ==> After(s, step).clients[j] == s.clients[j]
  {
  }

  lemma WorksShrink(a: map<nat, Client>, b: map<nat, Client>, k: nat)
    requires a.Keys == b.Keys && k in a && Work(b[k]) < Work(a[k])
    requires forall j :: j in a && j != k ==> a[j] == b[j]
    ensures Sum(Works(b)) < Sum(Works(a))
  {
    SumWithout(Works(a), k);
    SumUpdate(Works(a), k, Work(b[k]));
    assert Works(a)[k := Work(b[k])] == Works(b);
  }

  /** Every step towards the end of a round is one step fewer to go. */
  lemma TotalWorkShrinks(s: State, step: Step)
    requires Finishing(step) && Enabled(s, step)
    ensures TotalWork(After(s, step)) < TotalWork(s)
  {
    ClientWorkShrinks(s, step);
    OthersKeepWorking(s, step);
    WorksShrink(s.clients, After(s, step).clients, step.client);
  }

  lemma {:induction false} RunCons(s: State, step: Step, rest: seq<Step>)
    ensures Run(s, [step] + rest) == Run(After(s, step), rest)
  {
    var whole := [step] + rest;
    if rest == [] {
      assert whole == [step] && [step][..0] == [];
    } else {
      assert whole[..|whole| - 1] == [step] + rest[..|rest| - 1];
      RunCons(s, step, rest[..|rest| - 1]);
    }
  }

  predicate AllIdle(s: State)
  {
    forall k :: k in s.clients ==> s.clients[k] == IDLE
  }

  lemma IdleHoldsNothing(s: State)
    requires Inv(s) && AllIdle(s)
    ensures s.locks == map[]
  {
    forall id ensures id !in s.locks {
      assert LockOk(s, id);
    }
  }

  lemma StepTowardsEnd(s: State, k: nat) returns (step: Step)
    requires Inv(s) && k in s.clients && s.clients[k] != IDLE
    ensures Finishing(step) && Enabled(s, step) && Inv(After(s, step)) && TotalWork(After(s, step)) < TotalWork(s)
  {
    step := SomeClientCanStep(s, k);
    StepKeepsInv(s, step);
    TotalWorkShrinks(s, step);
  }

  /** From every reachable state all clients can finish their rounds, within `TotalWork`
      steps, and then every lock is free. */
  lemma {:induction false} AllLocksCanBeHandedBack(s: State) returns (steps: seq<Step>)
    requires Inv(s)
    ensures |steps| <= TotalWork(s) && forall i :: 0 <= i < |steps| ==> Finishing(steps[i])
    ensures AllIdle(Run(s, steps)) && Run(s, steps).locks == map[]
    decreases TotalWork(s)
  {
    if k :| k in s.clients && s.clients[k] != IDLE {
      var step := StepTowardsEnd(s, k);
      var rest := AllLocksCanBeHandedBack(After(s, step));
      RunCons(s, step, rest);
      steps := [step] + rest;
    } else {
      steps := [];
      IdleHoldsNothing(s);
    }
  }
}
