/** The clients of `QueuedRuns` on the condition-variable locks of `Locks`
    (src/queued_repo/repository.rs, src/lock/in_memory.rs): taking a lock is now a call that
    may find the flag set, wait, be notified or wake up spuriously, and test again. */
module QueuedLocks {
  import opened Basics
  import R = QueuedRuns
  import L = Locks

  datatype State = State(clients: R.State, locks: map<string, L.State>)

  function LockOf(s: State, id: string): L.State
  {
    if id in s.locks then s.locks[id] else L.FREE
  }

  /** `Own` steps touch no lock; `Ask` and `Wake` test the flag of the lock the client wants
      next; `Release` gives one lock back and notifies a waiter. */
  datatype Step =
    | Own(step: R.Step)
    | Ask(client: nat)
    | Wake(client: nat)
    | WakeSpuriously(client: nat)
    | Release(step: R.Step, notified: Option<nat>)

  predicate Wants(s: State, k: nat, id: string)
  {
    k in s.clients.clients && s.clients.clients[k].todo != [] && s.clients.clients[k].todo[0] == id
  }

  predicate Asking(s: State, k: nat)
  {
    k in s.clients.clients && s.clients.clients[k].todo != []
  }

  function Wanted(s: State, k: nat): string
    requires Asking(s, k)
  {
    s.clients.clients[k].todo[0]
  }

  /** The id whose lock an abort or unlock gives back. */
  ghost function Released(s: State, step: R.Step): string
    requires R.Enabled(s.clients, step) && (step.Abort? || step.Unlock?)
  {
    if step.Abort? then step.id else s.clients.clients[step.client].unlocking[0]
  }

  /** What the client does at the lock it wants. */
  function LockStep(step: Step): L.Step
    requires step.Ask? || step.Wake? || step.WakeSpuriously?
  {
    match step
    case Ask(k) => L.Lock(k)
    case Wake(k) => L.Resume(k)
    case WakeSpuriously(k) => L.WakeUpSpuriously(k)
  }

  ghost predicate Enabled(s: State, step: Step)
  {
    match step
    case Own(own) => R.Enabled(s.clients, own) && (own.Get? || own.Load? || own.Digest? || own.Commit?)
    case Release(own, notified) =>
      && R.Enabled(s.clients, own) && (own.Abort? || own.Unlock?)
      && L.Enabled(LockOf(s, Released(s, own)), L.Unlock(own.client, notified))
    case _ => Asking(s, step.client) && L.Enabled(LockOf(s, Wanted(s, step.client)), LockStep(step))
  }

  /** A step that is not enabled does nothing. */
  ghost function After(s: State, step: Step): State
  {
    if !Enabled(s, step) then s else
    match step
    case Own(own) => s.(clients := R.After(s.clients, own))
    case Release(own, notified) =>
      var id := Released(s, own);
      State(R.After(s.clients, own), s.locks[id := L.After(LockOf(s, id), L.Unlock(own.client, notified))])
    case _ =>
      var id := Wanted(s, step.client);
      var lock := L.After(LockOf(s, id), LockStep(step));
      State(if L.PhaseOf(lock, step.client) == L.Holding then R.After(s.clients, R.Acquire(step.client)) else s.clients,
            s.locks[id := lock])
  }

  ghost function Run(s: State, steps: seq<Step>): State
  {
    if steps == [] then s else After(Run(s, steps[..|steps| - 1]), steps[|steps| - 1])
  }

  predicate Initial(s: State)
  {
    R.Initial(s.clients) && s.locks == map[]
  }

  // ---- The invariant -----------------------------------------------------------------

  /** The lock of `id` is held by whom the clients say, and who sleeps at it wants it. */
  ghost predicate Matches(s: State, id: string)
  {
    var lock := LockOf(s, id);
    && (lock.flag <==> id in s.clients.locks)
    && (forall k: nat :: L.PhaseOf(lock, k) == L.Holding <==> id in s.clients.locks && s.clients.locks[id] == k)
    && (forall k: nat :: L.PhaseOf(lock, k) == L.Waiting || L.PhaseOf(lock, k) == L.Notified ==> Wants(s, k, id))
    && L.NoLostWakeUp(lock)
  }

  ghost predicate Inv(s: State)
  {
    R.Inv(s.clients) && forall id :: Matches(s, id)
  }

  lemma InitialIsConsistent(s: State)
    requires Initial(s)
    ensures Inv(s)
  {
    R.InitialIsConsistent(s.clients);
  }

  lemma OwnKeepsInv(s: State, own: R.Step)
    requires Inv(s) && Enabled(s, Own(own))
    ensures Inv(After(s, Own(own)))
  {
    var t := After(s, Own(own));
    R.StepKeepsInv(s.clients, own);
    assert R.ClientOk(s.clients, own.client);
    forall id ensures Matches(t, id) {
      assert Matches(s, id);
      forall k: nat | Wants(s, k, id) ensures Wants(t, k, id) {}
    }
  }

  /** Taking the lock is the clients' acquire step. */
  lemma TestIsAcquire(s: State, step: Step)
    requires Inv(s) && Enabled(s, step) && (step.Ask? || step.Wake?) && Wanted(s, step.client) !in s.clients.locks
    ensures R.Enabled(s.clients, R.Acquire(step.client))
    ensures After(s, step).clients == R.After(s.clients, R.Acquire(step.client))
  {
    assert Matches(s, Wanted(s, step.client));
  }

  /** What a test or a spurious wake-up changes: one phase at one lock, and the flag when
      the lock is taken. */
  lemma TestEffect(s: State, step: Step)
    requires Enabled(s, step) && (step.Ask? || step.Wake? || step.WakeSpuriously?)
    ensures var k, t := step.client, After(s, step);
      var id := Wanted(s, k);
      && (forall x :: x != id ==> LockOf(t, x) == LockOf(s, x))
      && (forall j: nat :: j != k ==> L.PhaseOf(LockOf(t, id), j) == L.PhaseOf(LockOf(s, id), j))
      && LockOf(t, id).flag == (LockOf(s, id).flag || !step.WakeSpuriously?)
      && L.PhaseOf(LockOf(s, id), k) != L.Holding
      && L.PhaseOf(LockOf(t, id), k) ==
           if step.WakeSpuriously? then L.Notified else if LockOf(s, id).flag then L.Waiting else L.Holding
  {
  }

  /** The test fails, or the wake-up is spurious: no client moves. */
  lemma SleepKeepsInv(s: State, step: Step)
    requires Inv(s) && Enabled(s, step) && (step.Ask? || step.Wake? || step.WakeSpuriously?)
    requires step.WakeSpuriously? || Wanted(s, step.client) in s.clients.locks
    ensures Inv(After(s, step))
  {
    var k, t := step.client, After(s, step);
    var id := Wanted(s, k);
    assert Matches(s, id);
    TestEffect(s, step);
    L.StepKeepsWakeUps(LockOf(s, id), LockStep(step));
    assert t.clients == s.clients;
    forall x ensures Matches(t, x) {
      assert Matches(s, x);
      if x == id {
        forall j: nat ensures L.PhaseOf(LockOf(t, id), j) == L.Holding <==> L.PhaseOf(LockOf(s, id), j) == L.Holding {}
        forall j: nat | Wants(s, j, id) ensures Wants(t, j, id) {}
      }
    }
  }

  /** Other locks and other clients' wishes are as before. */
  lemma MatchesElsewhere(s: State, t: State, x: string)
    requires Matches(s, x) && LockOf(t, x) == LockOf(s, x)
    requires x in t.clients.locks <==> x in s.clients.locks
    requires x in s.clients.locks ==> t.clients.locks[x] == s.clients.locks[x]
    requires forall j: nat :: Wants(s, j, x) ==> Wants(t, j, x)
    ensures Matches(t, x)
  {
  }

  lemma TakeKeepsInv(s: State, step: Step)
    requires Inv(s) && Enabled(s, step) && (step.Ask? || step.Wake?) && Wanted(s, step.client) !in s.clients.locks
    ensures Inv(After(s, step))
  {
    var k, t := step.client, After(s, step);
    var id := Wanted(s, k);
    assert Matches(s, id);
    TestIsAcquire(s, step);
    TestEffect(s, step);
    L.StepKeepsWakeUps(LockOf(s, id), LockStep(step));
    R.StepKeepsInv(s.clients, R.Acquire(k));
    forall x ensures Matches(t, x) {
      assert Matches(s, x);
      forall j: nat | Wants(s, j, x) && j != k ensures Wants(t, j, x) {}
      if x == id {
        forall j: nat ensures L.PhaseOf(LockOf(t, id), j) == L.Holding <==> j == k {}
      } else {
        forall j: nat | Wants(s, j, x) ensures Wants(t, j, x) {}
        MatchesElsewhere(s, t, x);
      }
    }
  }

  /** Who gives a lock back holds it. */
  lemma ReleaserHolds(s: State, own: R.Step)
    requires Inv(s) && R.Enabled(s.clients, own) && (own.Abort? || own.Unlock?)
    ensures var id := Released(s, own);
      id in s.clients.locks && s.clients.locks[id] == own.client && L.PhaseOf(LockOf(s, id), own.client) == L.Holding
  {
    var id := Released(s, own);
    assert R.LockOk(s.clients, id) && R.Holds(s.clients.clients[own.client], id);
    assert Matches(s, id);
  }

  /** The clients' half of giving a lock back. */
  lemma ReleaseOnClients(s: State, own: R.Step)
    requires R.Enabled(s.clients, own) && (own.Abort? || own.Unlock?)
    ensures var c := R.After(s.clients, own);
      && c.locks == s.clients.locks - {Released(s, own)}
      && c.clients.Keys == s.clients.clients.Keys
      && forall j :: j in c.clients ==> c.clients[j].todo == s.clients.clients[j].todo
  {
  }

  /** The lock's half, when its holder gives it back. */
  lemma UnlockEffect(lock: L.State, k: nat, notified: Option<nat>)
    requires L.Enabled(lock, L.Unlock(k, notified)) && lock.flag && L.PhaseOf(lock, k) == L.Holding
    ensures var after := L.After(lock, L.Unlock(k, notified));
      && !after.flag && L.PhaseOf(after, k) == L.Idle
      && forall j: nat :: j != k ==>
           L.PhaseOf(after, j) == if notified == Some(j) then L.Notified else L.PhaseOf(lock, j)
    ensures notified.Some? ==> L.PhaseOf(lock, notified.value) == L.Waiting
  {
  }

  lemma ReleaseKeepsInv(s: State, own: R.Step, notified: Option<nat>)
    requires Inv(s) && Enabled(s, Release(own, notified))
    ensures Inv(After(s, Release(own, notified)))
  {
    var t, id := After(s, Release(own, notified)), Released(s, own);
    assert Matches(s, id);
    ReleaserHolds(s, own);
    ReleaseOnClients(s, own);
    R.StepKeepsInv(s.clients, own);
    forall x, j: nat | Wants(s, j, x) ensures Wants(t, j, x) {}
    ReleasedMatches(s, t, id, own.client, notified);
    forall x | x != id ensures Matches(t, x) {
      assert Matches(s, x);
      MatchesElsewhere(s, t, x);
    }
  }

  lemma ReleasedMatches(s: State, t: State, id: string, k: nat, notified: Option<nat>)
    requires Matches(s, id) && id in s.clients.locks && s.clients.locks[id] == k
    requires L.Enabled(LockOf(s, id), L.Unlock(k, notified)) && LockOf(t, id) == L.After(LockOf(s, id), L.Unlock(k, notified))
    requires id !in t.clients.locks && forall j: nat :: Wants(s, j, id) ==> Wants(t, j, id)
    ensures Matches(t, id)
  {
    UnlockEffect(LockOf(s, id), k, notified);
    L.StepKeepsWakeUps(LockOf(s, id), L.Unlock(k, notified));
    forall j: nat ensures L.PhaseOf(LockOf(t, id), j) != L.Holding {}
  }

  lemma StepKeepsInv(s: State, step: Step)
    requires Inv(s)
    ensures Inv(After(s, step))
  {
    if Enabled(s, step) {
      match step {
        case Own(own) => OwnKeepsInv(s, own);
        case Release(own, notified) => ReleaseKeepsInv(s, own, notified);
        case WakeSpuriously(_) => SleepKeepsInv(s, step);
        case _ =>
          if Wanted(s, step.client) in s.clients.locks { SleepKeepsInv(s, step); } else { TakeKeepsInv(s, step); }
      }
    }
  }

  lemma {:induction false} RunKeepsInv(s: State, steps: seq<Step>)
    requires Inv(s)
    ensures Inv(Run(s, steps))
  {
    if steps != [] {
      RunKeepsInv(s, steps[..|steps| - 1]);
      StepKeepsInv(Run(s, steps[..|steps| - 1]), steps[|steps| - 1]);
    }
  }

  // ---- Progress ----------------------------------------------------------------------

  /** A step that brings some client closer to the end of its round. */
  ghost predicate Advances(s: State, step: Step)
  {
    && Enabled(s, step) && (step.Own? ==> !step.step.Get?)
    && R.TotalWork(After(s, step).clients) < R.TotalWork(s.clients)
  }

  /** The lock a client wants is free: the client can take it, or somebody else who has been
      notified can. */
  lemma SomebodyTakesFreeLock(s: State, k: nat) returns (step: Step)
    requires Inv(s) && Asking(s, k) && Wanted(s, k) !in s.clients.locks
    ensures Advances(s, step)
  {
    var id := Wanted(s, k);
    assert Matches(s, id);
    var lock := LockOf(s, id);
    step := if L.PhaseOf(lock, k) == L.Idle then Ask(k) else Wake(k);
    if L.PhaseOf(lock, k) == L.Waiting {
      var t: nat :| L.PhaseOf(lock, t) == L.Notified;
      assert Wants(s, t, id);
      step := Wake(t);
    }
    TestIsAcquire(s, step);
    R.TotalWorkShrinks(s.clients, R.Acquire(step.client));
  }

  lemma WhomToNotify(lock: L.State, k: nat) returns (notified: Option<nat>)
    requires L.PhaseOf(lock, k) == L.Holding
    ensures L.Enabled(lock, L.Unlock(k, notified))
  {
    notified := None;
    if w: nat :| L.PhaseOf(lock, w) == L.Waiting {
      notified := Some(w);
    }
  }

  lemma ReleaseAdvances(s: State, own: R.Step) returns (step: Step)
    requires Inv(s) && R.Enabled(s.clients, own) && (own.Abort? || own.Unlock?)
    ensures Advances(s, step)
  {
    ReleaserHolds(s, own);
    R.TotalWorkShrinks(s.clients, own);
    var notified := WhomToNotify(LockOf(s, Released(s, own)), own.client);
    step := Release(own, notified);
  }

  /** Deadlock freedom on real locks: whoever sleeps where, as long as a client is in the
      middle of a round, some client can take a step that brings it closer to the end. */
  lemma SomeClientAdvances(s: State, k: nat) returns (step: Step)
    requires Inv(s) && k in s.clients.clients && s.clients.clients[k] != R.IDLE
    ensures Advances(s, step)
  {
    var own := R.SomeClientCanStep(s.clients, k);
    match own {
      case Acquire(j) => step := SomebodyTakesFreeLock(s, j);
      case Load(j) =>
        R.TotalWorkShrinks(s.clients, own);
        step := Own(own);
      case _ => step := ReleaseAdvances(s, own);
    }
  }

  lemma {:induction false} RunCons(s: State, step: Step, rest: seq<Step>)
    ensures Run(s, [step] + rest) == Run(After(s, step), rest)
  {
    var whole := [step] + rest;
    if rest == [] {
      assert whole == [step] && [step][..0] == [];
    } else {
      assert whole[..|whole| - 1] == [step] + rest[..|rest| - 1];
      RunCons(s, step, rest[..|rest| - 1]);
    }
  }

  /** From every state that any run reaches, all clients can finish within the work they have
      left, and then no lock is taken. */
  lemma {:induction false} AllCanFinish(s: State) returns (steps: seq<Step>)
    requires Inv(s)
    ensures |steps| <= R.TotalWork(s.clients)
    ensures R.AllIdle(Run(s, steps).clients) && forall id :: !LockOf(Run(s, steps), id).flag
    decreases R.TotalWork(s.clients)
  {
    if k :| k in s.clients.clients && s.clients.clients[k] != R.IDLE {
      var step := SomeClientAdvances(s, k);
      StepKeepsInv(s, step);
      var rest := AllCanFinish(After(s, step));
      RunCons(s, step, rest);
      steps := [step] + rest;
    } else {
      steps := [];
      R.IdleHoldsNothing(s.clients);
      forall id ensures !LockOf(s, id).flag {
        assert Matches(s, id);
      }
    }
  }

  /** In every run from the start, a client that waits for a lock does not wait in vain for
      want of a step anybody could take. */
  lemma NoDeadlockInAnyRun(s: State, steps: seq<Step>, k: nat) returns (step: Step)
    requires Initial(s) && k in Run(s, steps).clients.clients && Run(s, steps).clients.clients[k] != R.IDLE
    ensures Advances(Run(s, steps), step)
  {
    InitialIsConsistent(s);
    RunKeepsInv(s, steps);
    step := SomeClientAdvances(Run(s, steps), k);
  }
}
