/** Runs of clients of one queued read model store that follow the discipline: read a key,
    which takes its lock, then write it or give the lock back (src/read_model/queued.rs). What
    a client writes is computed from what it read. A client with several keys is several
    sessions; a find is a series of reads in key order, given back where nothing matches any
    more. */
module ReadModelRuns {
  import opened Basics
  import opened ReadModels

  /** Between a read and the end of its session: the key, and what was read. */
  datatype Session = Session(key: string, read: Option<Stored>)

  datatype State = State(storage: Models, locks: map<string, nat>, sessions: map<nat, Session>)

  type Edit = Option<Stored> -> Bytes

  datatype Mode = ByUpsert | ByUpdate | ByInsert

  datatype Step =
    | Read(client: nat, key: string)
    | Put(client: nat, mode: Mode, edit: Edit)
    | Remove(client: nat)
    | Abort(client: nat)

  predicate Writes(step: Step)
  {
    step.Put? || step.Remove?
  }

  function Entry(models: Models, key: string): Option<Stored>
  {
    if key in models then Some(models[key]) else None
  }

  function ReadVersion(read: Option<Stored>): nat
  {
    if read.Some? then read.value.version else 0
  }

  /** The write a session sends; an update names the version just read. */
  function Request(session: Session, step: Step): Write
    requires Writes(step)
  {
    match step
    case Remove(_) => Delete
    case Put(_, mode, edit) =>
      match mode
      case ByUpsert => Upsert(edit(session.read))
      case ByUpdate => Update(edit(session.read), ReadVersion(session.read))
      case ByInsert => Insert(edit(session.read))
  }

  predicate Enabled(s: State, step: Step)
  {
    match step
    case Read(k, key) => k !in s.sessions && key !in s.locks
    case _ => step.client in s.sessions
  }

  /** The step writes, and the store takes it. */
  predicate Accepted(s: State, step: Step)
  {
    && Enabled(s, step) && Writes(step)
    && var session := s.sessions[step.client]; Refusal(s.storage, session.key, Request(session, step)).None?
  }

  function Ended(s: State, k: nat): State
    requires k in s.sessions
  {
    s.(locks := s.locks - {s.sessions[k].key}, sessions := s.sessions - {k})
  }

  /** A step that is not enabled does nothing; a refused write leaves the session as it is. */
  function After(s: State, step: Step): State
  {
    if !Enabled(s, step) then s else
    match step
    case Read(k, key) =>
      s.(locks := s.locks[key := k], sessions := s.sessions[k := Session(key, Entry(s.storage, key))])
    case Abort(k) => Ended(s, k)
    case _ =>
      if Accepted(s, step) then
        var session := s.sessions[step.client];
        Ended(s, step.client).(storage := Written(s.storage, session.key, Request(session, step)))
      else s
  }

  function Run(s: State, steps: seq<Step>): State
  {
    if steps == [] then s else After(Run(s, steps[..|steps| - 1]), steps[|steps| - 1])
  }

  predicate Initial(s: State)
  {
    s.locks == map[] && s.sessions == map[]
  }

  // ---- What the accepted writes mean -------------------------------------------------

  /** The write is made of the current entry, not of what some client read of it. */
  function Edited(entry: Option<Stored>, step: Step): Option<Stored>
    requires Writes(step)
  {
    match step
    case Remove(_) => None
    case Put(_, _, edit) => Some(Stored(edit(entry), if entry.Some? then entry.value.version + 1 else 1))
  }

  /** The accepted writes to `key`, in order. */
  function Edits(s: State, steps: seq<Step>, key: string): (edits: seq<Step>)
    ensures forall i :: 0 <= i < |edits| ==> Writes(edits[i])
  {
    if steps == [] then []
    else
      var before, step := Run(s, steps[..|steps| - 1]), steps[|steps| - 1];
      Edits(s, steps[..|steps| - 1], key) + if Accepted(before, step) && before.sessions[step.client].key == key then [step] else []
  }

  function Composed(entry: Option<Stored>, edits: seq<Step>): Option<Stored>
    requires forall i :: 0 <= i < |edits| ==> Writes(edits[i])
  {
    if edits == [] then entry
    else
      var last := edits[|edits| - 1];
      assert Writes(last);
      Edited(Composed(entry, edits[..|edits| - 1]), last)
  }

  lemma ComposedSnoc(entry: Option<Stored>, edits: seq<Step>, step: Step)
    requires Writes(step) && forall i :: 0 <= i < |edits| ==> Writes(edits[i])
    ensures Composed(entry, edits + [step]) == Edited(Composed(entry, edits), step)
  {
    assert (edits + [step])[..|edits|] == edits;
  }

  // ---- The invariant -----------------------------------------------------------------

  /** Every session has its key's lock and read what is still stored. */
  ghost predicate Inv(s: State)
  {
    && (forall k :: k in s.sessions ==>
          var session := s.sessions[k];
          session.key in s.locks && s.locks[session.key] == k && session.read == Entry(s.storage, session.key))
    && (forall key :: key in s.locks ==> s.locks[key] in s.sessions && s.sessions[s.locks[key]].key == key)
  }

  lemma StepKeepsInv(s: State, step: Step)
    requires Inv(s)
    ensures Inv(After(s, step))
  {
  }

  lemma {:induction false} RunKeepsInv(s: State, steps: seq<Step>)
    requires Initial(s)
    ensures Inv(Run(s, steps))
  {
    if steps != [] {
      RunKeepsInv(s, steps[..|steps| - 1]);
      StepKeepsInv(Run(s, steps[..|steps| - 1]), steps[|steps| - 1]);
    }
  }

  lemma StepEdits(s: State, step: Step, key: string)
    requires Inv(s)
    ensures Entry(After(s, step).storage, key) ==
      if Accepted(s, step) && s.sessions[step.client].key == key then Edited(Entry(s.storage, key), step)
      else Entry(s.storage, key)
  {
  }

  // ---- Main results ------------------------------------------------------------------

  /** No lost update: whatever the clients read when, the stored entry is the result of all
      accepted writes applied one after the other, each to the outcome of the one before. */
  lemma {:induction false} NoLostUpdate(s: State, steps: seq<Step>, key: string)
    requires Initial(s)
    ensures Entry(Run(s, steps).storage, key) == Composed(Entry(s.storage, key), Edits(s, steps, key))
  {
    if steps != [] {
      var front, step := steps[..|steps| - 1], steps[|steps| - 1];
      NoLostUpdate(s, front, key);
      RunKeepsInv(s, front);
      StepEdits(Run(s, front), step, key);
      var edits := Edits(s, front, key);
      assert edits + [] == edits;
      if Writes(step) {
        ComposedSnoc(Entry(s.storage, key), edits, step);
      }
    }
  }

  /** In a session, an upsert or delete is always taken; an update with the version just
      read exactly when there was an entry, an insert exactly when there was none. So no
      update ever meets a concurrency conflict. */
  lemma SessionWriteAcceptedIff(s: State, steps: seq<Step>, step: Step)
    requires Initial(s) && Enabled(Run(s, steps), step) && Writes(step)
    ensures var t := Run(s, steps);
      var session := t.sessions[step.client];
      && (Accepted(t, step) <==>
           step.Remove? || step.mode == ByUpsert || (if step.mode == ByUpdate then session.read.Some? else session.read.None?))
      && (step.Put? && step.mode == ByUpdate && !Accepted(t, step) ==>
           Refusal(t.storage, session.key, Request(session, step)) == Some(NotFound))
  {
    RunKeepsInv(s, steps);
  }

  /** The number of puts since the last removal. */
  function PutsSinceCreation(edits: seq<Step>): nat
  {
    if edits == [] || edits[|edits| - 1].Remove? then 0 else PutsSinceCreation(edits[..|edits| - 1]) + 1
  }

  lemma {:induction false} ComposedVersion(edits: seq<Step>)
    requires forall i :: 0 <= i < |edits| ==> Writes(edits[i])
    ensures ReadVersion(Composed(None, edits)) == PutsSinceCreation(edits)
    ensures Composed(None, edits).Some? <==> PutsSinceCreation(edits) > 0
  {
    if edits != [] {
      ComposedVersion(edits[..|edits| - 1]);
    }
  }

  /** A version is the number of accepted writes since the entry was created. */
  lemma VersionCountsWrites(s: State, steps: seq<Step>, key: string)
    requires Initial(s) && key !in s.storage
    ensures var t, puts := Run(s, steps), PutsSinceCreation(Edits(s, steps, key));
      if key in t.storage then t.storage[key].version == puts else puts == 0
  {
    NoLostUpdate(s, steps, key);
    ComposedVersion(Edits(s, steps, key));
  }
}
