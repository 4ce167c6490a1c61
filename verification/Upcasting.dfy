/** Schema evolution of stored events (src/entity/upcaster.rs). */
module Upcasting {
  import opened Events

  datatype Upcaster = Upcaster(eventType: string, fromVersion: nat, toVersion: nat, transform: Payload -> Payload)

  predicate Handles(u: Upcaster, name: string, version: nat)
  {
    u.eventType == name && u.fromVersion == version
  }

  /** Index of the first upcaster at or after `from` that handles it, or the list's length. */
  function FirstHandlerFrom(us: seq<Upcaster>, name: string, version: nat, from: nat): (i: nat)
    requires from <= |us|
    ensures from <= i <= |us|
    ensures i < |us| ==> Handles(us[i], name, version)
    decreases |us| - from
  {
    if from == |us| || Handles(us[from], name, version) then from else FirstHandlerFrom(us, name, version, from + 1)
  }

  function FirstMatch(us: seq<Upcaster>, e: EventRecord): nat
  {
    FirstHandlerFrom(us, e.name, e.version, 0)
  }

  lemma {:induction false} FirstHandlerIsFirst(us: seq<Upcaster>, name: string, version: nat, from: nat)
    requires from <= |us|
    ensures forall j :: from <= j < FirstHandlerFrom(us, name, version, from) ==> !Handles(us[j], name, version)
    decreases |us| - from
  {
    if from < |us| && !Handles(us[from], name, version) {
      FirstHandlerIsFirst(us, name, version, from + 1);
    }
  }

  /** No upcaster applies any more. */
  predicate Final(us: seq<Upcaster>, e: EventRecord)
  {
    FirstMatch(us, e) == |us|
  }

  function Apply(us: seq<Upcaster>, e: EventRecord): EventRecord
  {
    var i := FirstMatch(us, e);
    if i == |us| then e else e.(payload := us[i].transform(e.payload), version := us[i].toVersion)
  }

  function Iterate(us: seq<Upcaster>, e: EventRecord, n: nat): EventRecord
  {
    if n == 0 then e else Apply(us, Iterate(us, e, n - 1))
  }

  /** The upcasting loop stops on `e`. */
  ghost predicate Terminates(us: seq<Upcaster>, e: EventRecord)
  {
    exists n: nat :: Final(us, Iterate(us, e, n))
  }

  /** Where the loop ends when it ends; `TerminatesWithinListLength` justifies the count. */
  function Upcast(us: seq<Upcaster>, e: EventRecord): EventRecord
  {
    Iterate(us, e, |us|)
  }

  lemma {:induction false} IterateAdd(us: seq<Upcaster>, e: EventRecord, a: nat, b: nat)
    ensures Iterate(us, e, a + b) == Iterate(us, Iterate(us, e, a), b)
  {
    if b > 0 {
      IterateAdd(us, e, a, b - 1);
    }
  }

  lemma {:induction false} FinalStays(us: seq<Upcaster>, e: EventRecord, n: nat)
    requires Final(us, e)
    ensures Iterate(us, e, n) == e
  {
    if n > 0 {
      FinalStays(us, e, n - 1);
    }
  }

  lemma {:induction false} IterateKeepsRest(us: seq<Upcaster>, e: EventRecord, n: nat)
    ensures var r := Iterate(us, e, n); r == e.(payload := r.payload, version := r.version)
  {
    if n > 0 {
      IterateKeepsRest(us, e, n - 1);
    }
  }

  // ---- Termination -------------------------------------------------------------------

  lemma {:induction false} Pigeonhole(f: seq<nat>, bound: nat) returns (a: nat, b: nat)
    requires |f| > bound && forall i :: 0 <= i < |f| ==> f[i] < bound
    ensures a < b < |f| && f[a] == f[b]
    decreases bound
  {
    var last := |f| - 1;
    if k :| 0 <= k < last && f[k] == f[last] {
      a, b := k, last;
    } else {
      // Rename the value bound - 1 to f[last], which no earlier element uses.
      var g := seq(last, i requires 0 <= i < last => if f[i] == bound - 1 then f[last] else f[i]);
      a, b := Pigeonhole(g, bound - 1);
    }
  }

  /** From equal versions the loop goes through equal versions. */
  lemma {:induction false} SameVersionsSameSteps(us: seq<Upcaster>, e: EventRecord, f: EventRecord, n: nat)
    requires e.name == f.name && e.version == f.version
    ensures Iterate(us, e, n).version == Iterate(us, f, n).version
    ensures Final(us, Iterate(us, e, n)) <==> Final(us, Iterate(us, f, n))
  {
    IterateKeepsRest(us, e, n);
    IterateKeepsRest(us, f, n);
    if n > 0 {
      SameVersionsSameSteps(us, e, f, n - 1);
      IterateKeepsRest(us, e, n - 1);
      IterateKeepsRest(us, f, n - 1);
    }
  }

  lemma RepeatedPickGivesEarlierStop(us: seq<Upcaster>, e: EventRecord, a: nat, b: nat, n: nat)
    requires a < b <= n && Final(us, Iterate(us, e, n))
    requires !Final(us, Iterate(us, e, a))
    requires FirstMatch(us, Iterate(us, e, a)) == FirstMatch(us, Iterate(us, e, b))
    ensures Final(us, Iterate(us, e, a + (n - b)))
  {
    var x, y := Iterate(us, e, a), Iterate(us, e, b);
    IterateKeepsRest(us, e, a);
    IterateKeepsRest(us, e, b);
    assert x.version == us[FirstMatch(us, x)].fromVersion == y.version;
    var rest: nat := n - b;
    SameVersionsSameSteps(us, x, y, rest);
    IterateAdd(us, e, a, rest);
    IterateAdd(us, e, b, rest);
    assert b + rest == n;
    assert Final(us, Iterate(us, y, rest));
    assert Final(us, Iterate(us, x, rest));
  }

  lemma RepeatedPickExists(us: seq<Upcaster>, e: EventRecord) returns (a: nat, b: nat)
    requires forall k: nat :: k <= |us| ==> !Final(us, Iterate(us, e, k))
    ensures a < b <= |us| && FirstMatch(us, Iterate(us, e, a)) == FirstMatch(us, Iterate(us, e, b))
  {
    var picks: seq<nat> := seq(|us| + 1, k requires 0 <= k <= |us| => FirstMatch(us, Iterate(us, e, k)));
    a, b := Pigeonhole(picks, |us|);
  }

  /** A loop that has not stopped after one step per upcaster repeats a version, so an
      earlier step would already have been final. */
  lemma LateStopImpliesEarlierStop(us: seq<Upcaster>, e: EventRecord, n: nat) returns (m: nat)
    requires n > |us| && Final(us, Iterate(us, e, n))
    ensures m < n && Final(us, Iterate(us, e, m))
  {
    if k: nat :| k <= |us| && Final(us, Iterate(us, e, k)) {
      m := k;
    } else {
      var a, b := RepeatedPickExists(us, e);
      RepeatedPickGivesEarlierStop(us, e, a, b, n);
      m := a + (n - b);
    }
  }

  lemma {:induction false} StopsWithinListLength(us: seq<Upcaster>, e: EventRecord, n: nat)
    requires Final(us, Iterate(us, e, n))
    ensures Final(us, Upcast(us, e))
  {
    if n <= |us| {
      IterateAdd(us, e, n, |us| - n);
      FinalStays(us, Iterate(us, e, n), |us| - n);
    } else {
      var m := LateStopImpliesEarlierStop(us, e, n);
      StopsWithinListLength(us, e, m);
    }
  }

  /** The loop stops on an event exactly when it stops within as many steps as there are
      upcasters: a condition that can be computed from the list. */
  lemma TerminatesWithinListLength(us: seq<Upcaster>, e: EventRecord)
    ensures Terminates(us, e) <==> Final(us, Upcast(us, e))
  {
    if Terminates(us, e) {
      var n: nat :| Final(us, Iterate(us, e, n));
      StopsWithinListLength(us, e, n);
    }
  }

  ghost predicate Increasing(us: seq<Upcaster>)
  {
    forall i :: 0 <= i < |us| ==> us[i].fromVersion < us[i].toVersion
  }

  lemma {:induction false} StopsBelow(us: seq<Upcaster>, e: EventRecord, bound: nat) returns (n: nat)
    requires Increasing(us)
    requires forall i :: 0 <= i < |us| ==> us[i].fromVersion < bound
    ensures Final(us, Iterate(us, e, n))
    decreases if e.version < bound then bound - e.version else 0
  {
    if Final(us, e) {
      n := 0;
    } else {
      var m := StopsBelow(us, Apply(us, e), bound);
      assert Iterate(us, e, 1) == Apply(us, Iterate(us, e, 0)) == Apply(us, e);
      IterateAdd(us, e, 1, m);
      n := 1 + m;
    }
  }

  function MaxFrom(us: seq<Upcaster>): (bound: nat)
    ensures forall i :: 0 <= i < |us| ==> us[i].fromVersion <= bound
  {
    if us == [] then 0
    else
      var rest := MaxFrom(us[1..]);
      assert forall i :: 0 < i < |us| ==> us[i] == us[1..][i - 1];
      if us[0].fromVersion > rest then us[0].fromVersion else rest
  }

  /** Upcasters that always raise the version never loop. */
  lemma IncreasingTerminates(us: seq<Upcaster>, e: EventRecord)
    requires Increasing(us)
    ensures Terminates(us, e)
  {
    var n := StopsBelow(us, e, MaxFrom(us) + 1);
  }

  /** An upcaster to its own version never stops. */
  lemma SelfUpcasterLoops(transform: Payload -> Payload, e: EventRecord)
    ensures !Terminates([Upcaster(e.name, e.version, e.version, transform)], e)
  {
    var us := [Upcaster(e.name, e.version, e.version, transform)];
    assert Handles(us[0], e.name, e.version);
    assert Iterate(us, e, 1) == Apply(us, Iterate(us, e, 0));
    assert Handles(us[0], Iterate(us, e, 1).name, Iterate(us, e, 1).version);
    TerminatesWithinListLength(us, e);
  }

  // ---- What the loop computes --------------------------------------------------------

  /** The result is final, keeps everything but payload and version, and upcasting it
      again changes nothing. */
  lemma UpcastNormalForm(us: seq<Upcaster>, e: EventRecord)
    requires Terminates(us, e)
    ensures var r := Upcast(us, e);
      && Final(us, r)
      && r == e.(payload := r.payload, version := r.version)
      && Upcast(us, r) == r
  {
    TerminatesWithinListLength(us, e);
    IterateKeepsRest(us, e, |us|);
    FinalStays(us, Upcast(us, e), |us|);
  }

  /** Which upcaster fires does not depend on the order of the list. */
  ghost predicate DistinctKeys(us: seq<Upcaster>)
  {
    forall i, j :: 0 <= i < j < |us| ==> us[i].eventType != us[j].eventType || us[i].fromVersion != us[j].fromVersion
  }

  lemma ApplyIgnoresOrder(us: seq<Upcaster>, vs: seq<Upcaster>, e: EventRecord)
    requires multiset(us) == multiset(vs) && DistinctKeys(us)
    ensures Apply(us, e) == Apply(vs, e)
  {
    var i, j := FirstMatch(us, e), FirstMatch(vs, e);
    FirstHandlerIsFirst(us, e.name, e.version, 0);
    FirstHandlerIsFirst(vs, e.name, e.version, 0);
    if i < |us| {
      assert us[i] in multiset(vs);
      var k :| 0 <= k < |vs| && vs[k] == us[i];
      assert j < |vs|;
    }
    if j < |vs| {
      assert vs[j] in multiset(us);
      var k :| 0 <= k < |us| && us[k] == vs[j];
      assert k == i;
    }
  }

  lemma {:induction false} IterateIgnoresOrder(us: seq<Upcaster>, vs: seq<Upcaster>, e: EventRecord, n: nat)
    requires multiset(us) == multiset(vs) && DistinctKeys(us)
    ensures Iterate(us, e, n) == Iterate(vs, e, n)
  {
    if n > 0 {
      IterateIgnoresOrder(us, vs, e, n - 1);
      ApplyIgnoresOrder(us, vs, Iterate(us, e, n - 1));
    }
  }

  lemma UpcastIgnoresOrder(us: seq<Upcaster>, vs: seq<Upcaster>, e: EventRecord)
    requires multiset(us) == multiset(vs) && DistinctKeys(us)
    ensures Upcast(us, e) == Upcast(vs, e)
  {
    assert |us| == |multiset(us)| == |multiset(vs)| == |vs|;
    IterateIgnoresOrder(us, vs, e, |us|);
  }

  function UpcastEvents(us: seq<Upcaster>, events: seq<EventRecord>): (result: seq<EventRecord>)
    ensures |result| == |events|
    ensures forall i :: 0 <= i < |events| ==> result[i] == Upcast(us, events[i])
  {
    seq(|events|, i requires 0 <= i < |events| => Upcast(us, events[i]))
  }

  lemma UpcastEventsConcat(us: seq<Upcaster>, a: seq<EventRecord>, b: seq<EventRecord>)
    ensures UpcastEvents(us, a + b) == UpcastEvents(us, a) + UpcastEvents(us, b)
  {
  }

  // ---- The loops ---------------------------------------------------------------------

  /** The inner loop: apply the first upcaster that handles the event. */
  method ApplyFirst(e: EventRecord, us: seq<Upcaster>) returns (event: EventRecord, applied: bool)
    ensures event == Apply(us, e) && applied == !Final(us, e)
  {
    ghost var first := FirstMatch(us, e);
    FirstHandlerIsFirst(us, e.name, e.version, 0);
    for i := 0 to |us|
      invariant i <= first
    {
      if Handles(us[i], e.name, e.version) {
        return e.(payload := us[i].transform(e.payload), version := us[i].toVersion), true;
      }
    }
    return e, false;
  }

  method UpcastOne(e: EventRecord, us: seq<Upcaster>) returns (event: EventRecord)
    requires Terminates(us, e)
    ensures event == Upcast(us, e)
    ensures Final(us, event)
  {
    TerminatesWithinListLength(us, e);
    event := e;
    ghost var steps := 0;
    var applied := true;
    while applied
      invariant 0 <= steps <= |us|
      invariant event == Iterate(us, e, steps)
      invariant !applied ==> Final(us, event)
      decreases |us| - steps, applied
    {
      event, applied := ApplyFirst(event, us);
      if applied {
        NotFinalBefore(us, e, steps);
        steps := steps + 1;
      }
    }
    FinalStays(us, event, |us| - steps);
    IterateAdd(us, e, steps, |us| - steps);
  }

  /** As long as the loop goes on it has not used up its rounds. */
  lemma NotFinalBefore(us: seq<Upcaster>, e: EventRecord, steps: nat)
    requires Final(us, Upcast(us, e)) && steps <= |us| && !Final(us, Iterate(us, e, steps))
    ensures steps < |us|
  {
  }

  method UpcastAll(events: seq<EventRecord>, us: seq<Upcaster>) returns (result: seq<EventRecord>)
    requires forall i :: 0 <= i < |events| ==> Terminates(us, events[i])
    ensures result == UpcastEvents(us, events)
  {
    result := [];
    for i := 0 to |events|
      invariant result == UpcastEvents(us, events[..i])
    {
      var event := UpcastOne(events[i], us);
      result := result + [event];
    }
    assert events[..|events|] == events;
  }
}
