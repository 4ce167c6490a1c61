/** Runs of clients of the plain read model store (src/read_model/in_memory.rs), where nothing
    is locked between a read and the `update` that names the version read. Anybody else may
    write any key in between. */
module UnlockedRuns {
  import opened Basics
  import opened ReadModels
  import opened ReadModelRuns

  datatype Store = Store(storage: Models, sessions: map<nat, Session>)

  datatype Action =
    | Look(client: nat, key: string)
    | Change(client: nat, edit: Edit)
    | Other(key: string, write: Write)

  /** The update a session sends. */
  function Sent(session: Session, edit: Edit): Write
  {
    Update(edit(session.read), ReadVersion(session.read))
  }

  predicate UpdateAccepted(s: Store, c: nat, edit: Edit)
  {
    c in s.sessions && Refusal(s.storage, s.sessions[c].key, Sent(s.sessions[c], edit)).None?
  }

  function Next(s: Store, action: Action): Store
  {
    match action
    case Look(c, key) => s.(sessions := s.sessions[c := Session(key, Entry(s.storage, key))])
    case Change(c, edit) =>
      if c in s.sessions then s.(storage := Written(s.storage, s.sessions[c].key, Sent(s.sessions[c], edit))) else s
    case Other(key, w) => s.(storage := Written(s.storage, key, w))
  }

  function RunOf(s: Store, actions: seq<Action>): Store
  {
    if actions == [] then s else Next(RunOf(s, actions[..|actions| - 1]), actions[|actions| - 1])
  }

  /** The action deletes `key`. */
  predicate Deletes(action: Action, key: string)
  {
    action.Other? && action.key == key && action.write == Delete
  }

  /** The client does not read again, and nobody deletes `key`. */
  ghost predicate Undisturbed(actions: seq<Action>, c: nat, key: string)
  {
    forall i :: 0 <= i < |actions| ==> !(actions[i].Look? && actions[i].client == c) && !Deletes(actions[i], key)
  }

  /** The session read what is stored now, or the entry has moved on to a later version. */
  predicate ReadIsCurrentOrOlder(s: Store, c: nat, session: Session)
  {
    && c in s.sessions && s.sessions[c] == session
    && var entry := Entry(s.storage, session.key);
      entry == session.read || (entry.Some? && ReadVersion(entry) > ReadVersion(session.read))
  }

  lemma NextKeepsRead(s: Store, action: Action, c: nat, session: Session)
    requires ReadIsCurrentOrOlder(s, c, session)
    requires !(action.Look? && action.client == c) && !Deletes(action, session.key)
    ensures ReadIsCurrentOrOlder(Next(s, action), c, session)
  {
  }

  lemma {:induction false} RunKeepsRead(s: Store, actions: seq<Action>, c: nat, session: Session)
    requires ReadIsCurrentOrOlder(s, c, session) && Undisturbed(actions, c, session.key)
    ensures ReadIsCurrentOrOlder(RunOf(s, actions), c, session)
  {
    if actions != [] {
      RunKeepsRead(s, actions[..|actions| - 1], c, session);
      NextKeepsRead(RunOf(s, actions[..|actions| - 1]), actions[|actions| - 1], c, session);
    }
  }

  /** The versions do their work while nobody deletes: in every run since the read, an
      update is accepted only if it was computed from the entry stored now, so no update of
      anybody is lost. */
  lemma AcceptedUpdateSawCurrentEntry(s: Store, actions: seq<Action>, c: nat, key: string, edit: Edit)
    requires Undisturbed(actions, c, key)
    ensures var t := RunOf(Next(s, Look(c, key)), actions);
      UpdateAccepted(t, c, edit) ==>
        && t.sessions[c].read == Entry(t.storage, key)
        && Entry(Next(t, Change(c, edit)).storage, key) == Edited(Entry(t.storage, key), Put(c, ByUpdate, edit))
  {
    var first := Next(s, Look(c, key));
    RunKeepsRead(first, actions, c, first.sessions[c]);
  }

  // ---- Deletes -----------------------------------------------------------------------

  /** The deletion and what follows it: an insert, and upserts up to version `n`. */
  function Recreation(key: string, bytes: Bytes, n: nat): seq<Action>
    requires n >= 1
  {
    if n == 1 then [Other(key, Delete), Other(key, Insert(bytes))]
    else Recreation(key, bytes, n - 1) + [Other(key, Upsert(bytes))]
  }

  lemma RunOfSnoc(s: Store, actions: seq<Action>, action: Action)
    ensures RunOf(s, actions + [action]) == Next(RunOf(s, actions), action)
  {
    assert (actions + [action])[..|actions|] == actions;
  }

  lemma DeletedAndInserted(s: Store, key: string, bytes: Bytes)
    ensures RunOf(s, [Other(key, Delete), Other(key, Insert(bytes))]) ==
      s.(storage := (s.storage - {key})[key := Stored(bytes, 1)])
  {
    RunOfSnoc(s, [], Other(key, Delete));
    RunOfSnoc(s, [Other(key, Delete)], Other(key, Insert(bytes)));
    assert [] + [Other(key, Delete)] == [Other(key, Delete)];
    assert [Other(key, Delete)] + [Other(key, Insert(bytes))] == [Other(key, Delete), Other(key, Insert(bytes))];
  }

  lemma UpsertedAgain(s: Store, key: string, bytes: Bytes)
    requires key in s.storage
    ensures var t := Next(s, Other(key, Upsert(bytes)));
      Entry(t.storage, key) == Some(Stored(bytes, s.storage[key].version + 1)) && t.sessions == s.sessions
  {
  }

  /** A new entry under an old key counts its versions from 1 again. */
  lemma {:induction false} RecreatedEntry(s: Store, key: string, bytes: Bytes, n: nat)
    requires n >= 1
    ensures var t := RunOf(s, Recreation(key, bytes, n));
      Entry(t.storage, key) == Some(Stored(bytes, n)) && t.sessions == s.sessions
  {
    if n == 1 {
      DeletedAndInserted(s, key, bytes);
    } else {
      RecreatedEntry(s, key, bytes, n - 1);
      RunOfSnoc(s, Recreation(key, bytes, n - 1), Other(key, Upsert(bytes)));
      UpsertedAgain(RunOf(s, Recreation(key, bytes, n - 1)), key, bytes);
    }
  }

  lemma {:induction false} RecreationDoesNotLook(key: string, bytes: Bytes, n: nat)
    requires n >= 1
    ensures forall i :: 0 <= i < |Recreation(key, bytes, n)| ==> Recreation(key, bytes, n)[i].Other?
  {
    if n > 1 {
      RecreationDoesNotLook(key, bytes, n - 1);
    }
  }

  /** Some run in which the client does not read again ends with its update accepted although
      what it read is no longer what is stored. Deletes of the key are allowed or not. */
  ghost predicate StaleUpdatePossible(s: Store, c: nat, edit: Edit, deletes: bool)
    requires c in s.sessions
  {
    exists actions :: IsStaleUpdate(s, actions, c, edit, deletes)
  }

  ghost predicate IsStaleUpdate(s: Store, actions: seq<Action>, c: nat, edit: Edit, deletes: bool)
    requires c in s.sessions
  {
    var t, key := RunOf(s, actions), s.sessions[c].key;
    && (forall i :: 0 <= i < |actions| ==> !(actions[i].Look? && actions[i].client == c))
    && (!deletes ==> Undisturbed(actions, c, key))
    && UpdateAccepted(t, c, edit) && t.sessions[c].read != Entry(t.storage, key)
  }

  /** So after reading an entry a stale update can be accepted, and somebody's update be
      lost, if and only if somebody may delete the key in between: the version restarts at 1
      and can come by the version read again. */
  lemma StaleUpdatePossibleIff(s: Store, c: nat, key: string, edit: Edit, deletes: bool)
    requires key in s.storage && s.storage[key].version >= 1
    ensures StaleUpdatePossible(Next(s, Look(c, key)), c, edit, deletes) <==> deletes
  {
    var first := Next(s, Look(c, key));
    var stored := s.storage[key];
    if deletes {
      var bytes := stored.bytes + [0];
      var actions := Recreation(key, bytes, stored.version);
      RecreatedEntry(first, key, bytes, stored.version);
      RecreationDoesNotLook(key, bytes, stored.version);
      assert bytes != stored.bytes by { assert |bytes| == |stored.bytes| + 1; }
      assert IsStaleUpdate(first, actions, c, edit, deletes);
    } else {
      forall actions | Undisturbed(actions, c, key) ensures !IsStaleUpdate(first, actions, c, edit, false) {
        AcceptedUpdateSawCurrentEntry(s, actions, c, key, edit);
      }
    }
  }
}
