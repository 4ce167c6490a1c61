/** The in-memory lock (src/lock/in_memory.rs): a flag behind a mutex and a condition
    variable. Each step is what one thread does between taking the mutex and giving it
    back, in a wait or at the end of the call. */
module Locks {
  import opened Basics

  /** `Waiting` threads sleep on the condition variable; `Notified` ones have been woken and
      will test the flag again. */
  datatype Phase = Idle | Waiting | Notified | Holding

  datatype State = State(flag: bool, threads: map<nat, Phase>)

  const FREE := State(false, map[])

  datatype Step =
    | Lock(thread: nat)
    | TryLock(thread: nat)
    | Resume(thread: nat)
    | WakeUpSpuriously(thread: nat)
    | Unlock(thread: nat, notified: Option<nat>)

  function PhaseOf(s: State, t: nat): Phase
  {
    if t in s.threads then s.threads[t] else Idle
  }

  /** `notify_one` wakes some waiting thread whenever there is one. */
  ghost predicate Enabled(s: State, step: Step)
  {
    match step
    case Lock(t) => PhaseOf(s, t) == Idle
    case TryLock(t) => PhaseOf(s, t) == Idle
    case Resume(t) => PhaseOf(s, t) == Notified
    case WakeUpSpuriously(t) => PhaseOf(s, t) == Waiting
    case Unlock(t, notified) =>
      && (PhaseOf(s, t) == Idle || PhaseOf(s, t) == Holding)
      && (if notified.Some? then PhaseOf(s, notified.value) == Waiting else forall w: nat :: PhaseOf(s, w) != Waiting)
  }

  /** Test the flag: take the lock, or do what a failed test leads to. */
  function Test(s: State, t: nat, otherwise: Phase): State
  {
    if s.flag then s.(threads := s.threads[t := otherwise]) else State(true, s.threads[t := Holding])
  }

  function Released(s: State, t: nat, notified: Option<nat>): State
  {
    var threads := s.threads[t := Idle];
    if !s.flag then s.(threads := threads)
    else State(false, if notified.Some? then threads[notified.value := Notified] else threads)
  }

  /** A step that is not enabled does nothing. */
  ghost function After(s: State, step: Step): State
  {
    if !Enabled(s, step) then s else
    match step
    case Lock(t) => Test(s, t, Waiting)
    case TryLock(t) => Test(s, t, Idle)
    case Resume(t) => Test(s, t, Waiting)
    case WakeUpSpuriously(t) => s.(threads := s.threads[t := Notified])
    case Unlock(t, notified) => Released(s, t, notified)
  }

  ghost function Run(steps: seq<Step>): State
  {
    if steps == [] then FREE else After(Run(steps[..|steps| - 1]), steps[|steps| - 1])
  }

  // ---- No lost wake-up ---------------------------------------------------------------

  /** Whenever the lock is free while threads wait for it, one of them has been woken. */
  ghost predicate NoLostWakeUp(s: State)
  {
    !s.flag && (exists t: nat :: PhaseOf(s, t) == Waiting) ==> exists t: nat :: PhaseOf(s, t) == Notified
  }

  lemma StepKeepsWakeUps(s: State, step: Step)
    requires NoLostWakeUp(s)
    ensures NoLostWakeUp(After(s, step))
  {
    var s' := After(s, step);
    if Enabled(s, step) && !s'.flag && exists t: nat :: PhaseOf(s', t) == Waiting {
      var w: nat :| PhaseOf(s', w) == Waiting;
      match step {
        case WakeUpSpuriously(t) => assert PhaseOf(s', t) == Notified;
        case Unlock(t, notified) =>
          assert PhaseOf(s, w) == Waiting;
          if s.flag {
            assert PhaseOf(s', notified.value) == Notified;
          } else {
            var n: nat :| PhaseOf(s, n) == Notified;
            assert PhaseOf(s', n) == Notified;
          }
        case _ =>
      }
    }
  }

  /** In every run, with spurious wake-ups, barging callers and even stray unlocks: if the
      flag is false while threads wait, some thread has been notified, and it acquires the
      lock when it resumes. */
  lemma {:induction false} WakeUpsAreNotLost(steps: seq<Step>) returns (next: nat)
    ensures NoLostWakeUp(Run(steps))
    ensures var s := Run(steps);
      !s.flag && (exists t: nat :: PhaseOf(s, t) == Waiting) ==>
        Enabled(s, Resume(next)) && PhaseOf(After(s, Resume(next)), next) == Holding
  {
    next := 0;
    if steps != [] {
      var _ := WakeUpsAreNotLost(steps[..|steps| - 1]);
      StepKeepsWakeUps(Run(steps[..|steps| - 1]), steps[|steps| - 1]);
      var s := Run(steps);
      if t: nat :| PhaseOf(s, t) == Notified {
        next := t;
      }
    }
  }

  // ---- Mutual exclusion --------------------------------------------------------------

  /** At most one thread holds the lock, and the flag says whether one does. */
  ghost predicate Exclusive(s: State)
  {
    && (forall t: nat, u: nat :: PhaseOf(s, t) == Holding && PhaseOf(s, u) == Holding ==> t == u)
    && (s.flag <==> exists t: nat :: PhaseOf(s, t) == Holding)
  }

  /** The client discipline: whoever unlocks a locked lock holds it. */
  ghost predicate Disciplined(s: State, step: Step)
  {
    step.Unlock? && Enabled(s, step) && s.flag ==> PhaseOf(s, step.thread) == Holding
  }

  ghost predicate AllDisciplined(steps: seq<Step>)
  {
    steps == [] || (AllDisciplined(steps[..|steps| - 1]) && Disciplined(Run(steps[..|steps| - 1]), steps[|steps| - 1]))
  }

  /** The discipline is exactly what exclusion needs. */
  lemma StepKeepsExclusiveIff(s: State, step: Step)
    requires Exclusive(s)
    ensures Exclusive(After(s, step)) <==> Disciplined(s, step)
  {
    var s' := After(s, step);
    if Enabled(s, step) {
      match step {
        case Unlock(t, notified) =>
          forall u: nat ensures PhaseOf(s', u) == Holding <==> PhaseOf(s, u) == Holding && u != t {}
          if s.flag {
            var h: nat :| PhaseOf(s, h) == Holding;
            assert h != t ==> PhaseOf(s', h) == Holding;
          }
        case WakeUpSpuriously(t) => SamePhaseElsewhere(s, s', t);
        case _ =>
          SamePhaseElsewhere(s, s', step.thread);
          if !s.flag { assert PhaseOf(s', step.thread) == Holding; }
      }
    }
  }

  /** Only `t` changes its phase, and not away from holding. */
  lemma SamePhaseElsewhere(s: State, s': State, t: nat)
    requires forall u: nat :: u != t ==> PhaseOf(s', u) == PhaseOf(s, u)
    requires PhaseOf(s, t) != Holding
    ensures (exists u: nat :: PhaseOf(s, u) == Holding) ==> exists u: nat :: PhaseOf(s', u) == Holding
    ensures PhaseOf(s', t) != Holding ==>
      ((exists u: nat :: PhaseOf(s', u) == Holding) ==> exists u: nat :: PhaseOf(s, u) == Holding)
  {
    if u: nat :| PhaseOf(s, u) == Holding {
      assert PhaseOf(s', u) == Holding;
    }
    if v: nat :| PhaseOf(s', v) == Holding && PhaseOf(s', t) != Holding {
      assert PhaseOf(s, v) == Holding;
    }
  }

  /** If only holders unlock, every run has at most one holder at a time. */
  lemma {:induction false} MutualExclusion(steps: seq<Step>)
    requires AllDisciplined(steps)
    ensures Exclusive(Run(steps))
  {
    if steps != [] {
      MutualExclusion(steps[..|steps| - 1]);
      StepKeepsExclusiveIff(Run(steps[..|steps| - 1]), steps[|steps| - 1]);
    }
  }

  /** `unlock` does not ask who calls it: when a thread that does not hold a held lock
      unlocks it, the next `try_lock` makes a second holder. */
  lemma StrayUnlockMakesTwoHolders(s: State, holder: nat, stray: nat, next: nat, notified: Option<nat>)
    requires Exclusive(s) && PhaseOf(s, holder) == Holding && stray != holder && next != holder
    requires Enabled(s, Unlock(stray, notified)) && PhaseOf(s, next) == Idle
    ensures var t := After(After(s, Unlock(stray, notified)), TryLock(next));
      PhaseOf(t, holder) == Holding && PhaseOf(t, next) == Holding
  {
  }

  // ---- The lock and its manager as objects -------------------------------------------

  class InMemoryLock {
    var locked: bool

    constructor ()
      ensures !locked
    {
      locked := false;
    }

    /** `wakeUps` are the values of the flag found at each return from the wait, as other
        threads left it; when they run out the caller is still waiting. */
    method Lock(wakeUps: seq<bool>) returns (acquired: bool)
      modifies this
      ensures acquired <==> !old(locked) || exists i :: 0 <= i < |wakeUps| && !wakeUps[i]
      ensures locked
    {
      var n := 0;
      while locked && n < |wakeUps|
        invariant 0 <= n <= |wakeUps|
        invariant locked ==> old(locked) && forall i :: 0 <= i < n ==> wakeUps[i]
        invariant !locked ==> !old(locked) || exists i :: 0 <= i < n && !wakeUps[i]
      {
        locked := wakeUps[n];
        n := n + 1;
      }
      acquired := !locked;
      locked := true;
    }

    method TryLock() returns (acquired: bool)
      modifies this
      ensures locked && acquired == !old(locked)
    {
      acquired := !locked;
      if !locked {
        locked := true;
      }
    }

    /** One waiter is notified exactly when the lock was held; which one, and what it then
        does, is a step of the runs above. */
    method Unlock() returns (notifies: bool)
      modifies this
      ensures !locked && notifies == old(locked)
    {
      notifies := false;
      if locked {
        locked := false;
        notifies := true;
      }
    }
  }

  class InMemoryLockManager {
    var locks: map<string, InMemoryLock>

    /** Different ids have different locks. */
    ghost predicate Valid()
      reads this
    {
      forall a, b :: a in locks && b in locks && locks[a] == locks[b] ==> a == b
    }

    constructor ()
      ensures Valid() && locks == map[]
    {
      locks := map[];
    }

    /** The lock of an id, made when it is first asked for and the same ever after. */
    method GetLock(id: string) returns (lock: InMemoryLock)
      requires Valid()
      modifies this
      ensures Valid() && id in locks && locks[id] == lock
      ensures if id in old(locks) then locks == old(locks)
        else locks == old(locks)[id := lock] && fresh(lock) && !lock.locked
    {
      if id !in locks {
        lock := new InMemoryLock();
        locks := locks[id := lock];
      }
      lock := locks[id];
    }
  }
}
