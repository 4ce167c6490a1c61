/** Completing and releasing messages by hand while workers run
    (src/outbox_worker/repository_ext.rs): what each may do to the workers' promise. */
module OutboxByHand {
  import opened OutboxMessages
  import opened OutboxStore
  import opened OutboxWorkers

  function ByHand(s: State, id: string, c: Command): State
  {
    s.(messages := Settle(s.messages, id, c))
  }

  predicate InFlightAt(s: State, id: string)
  {
    id in s.messages && s.messages[id].status == InFlight
  }

  /** At most once, exactly once if Published, never while Pending, from here on. */
  ghost predicate PromiseKept(s: State)
  {
    forall more, id :: DeliveriesOk(Run(s, more), id)
  }

  ghost predicate AtMostOnce(s: State)
  {
    forall more, id :: Count(Run(s, more).bus, id) <= 1
  }

  lemma InvKeepsPromise(s: State)
    requires Inv(s)
    ensures PromiseKept(s) && AtMostOnce(s)
  {
    forall more, id ensures DeliveriesOk(Run(s, more), id) && Count(Run(s, more).bus, id) <= 1 {
      InvForever(s, more);
    }
  }

  lemma NothingByHand(s: State, id: string, c: Command)
    requires c.Complete? || c.Release?
    requires !InFlightAt(s, id)
    ensures ByHand(s, id, c) == s
  {
  }

  // ---- Completing --------------------------------------------------------------------

  /** A completion by hand keeps the promise if and only if the message is not in flight, so
      that nothing happens, or it is on the bus already. */
  lemma CompleteByHandIff(first: State, steps: seq<Step>, id: string)
    requires Initial(first)
    ensures var s := Run(first, steps);
      PromiseKept(ByHand(s, id, Complete)) <==> !InFlightAt(s, id) || Count(s.bus, id) > 0
  {
    RunKeepsInv(first, steps);
    var s := Run(first, steps);
    var t := ByHand(s, id, Complete);
    assert DeliveriesOk(s, id);
    if !InFlightAt(s, id) {
      NothingByHand(s, id, Complete);
      InvKeepsPromise(s);
    } else if Count(s.bus, id) > 0 {
      CompletedOnBus(s, id);
      InvKeepsPromise(t);
    } else {
      assert Run(t, []) == t && !DeliveriesOk(t, id);
    }
  }

  lemma CompletedOnBus(s: State, id: string)
    requires Inv(s) && InFlightAt(s, id) && Count(s.bus, id) > 0
    ensures Inv(ByHand(s, id, Complete))
  {
    assert DeliveriesOk(s, id);
    SameButOneStatus(s, ByHand(s, id, Complete), id);
  }

  /** Another status for one message, which fits where it is held and delivered. */
  lemma SameButOneStatus(s: State, t: State, id: string)
    requires Inv(s) && id in s.messages && t.workers == s.workers && t.bus == s.bus && t.messages.Keys == s.messages.Keys
    requires forall x :: x in s.messages ==> t.messages[x].destination == s.messages[x].destination
    requires forall x :: x in s.messages && x != id ==> t.messages[x].status == s.messages[x].status
    requires t.messages[id].status == Pending ==> forall w, i: nat :: !Holds(s, w, i, id)
    requires DeliveriesOk(t, id)
    ensures Inv(t)
  {
    forall w ensures BatchOk(t, w) && StatsOk(t, w) {
      assert BatchOk(s, w) && StatsOk(s, w);
      forall i: nat | w in s.workers && i < |s.workers[w].batch| && s.workers[w].batch[i] == id ensures t.messages[id].status != Pending {
        assert Holds(s, w, i, id);
      }
    }
    forall v, i: nat, u, j: nat, x | Holds(t, v, i, x) && Holds(t, u, j, x) ensures v == u && i == j {
      assert Holds(s, v, i, x) && Holds(s, u, j, x);
    }
    forall x ensures DeliveriesOk(t, x) {
      assert DeliveriesOk(s, x);
    }
    forall k: nat ensures RoutedOk(t, k) {
      assert RoutedOk(s, k);
    }
  }

  // ---- A message on the bus and in flight is about to be completed -------------------

  ghost predicate SentIsHeld(s: State)
  {
    forall id :: InFlightAt(s, id) && Count(s.bus, id) > 0 ==> exists w :: Holds(s, w, 0, id) && s.workers[w].phase == Sent
  }

  lemma PublishKeepsSentHeld(s: State, w: nat, accepted: bool)
    requires Inv(s) && SentIsHeld(s) && Enabled(s, Publish(w, accepted))
    ensures SentIsHeld(After(s, Publish(w, accepted)))
  {
    var t, head := After(s, Publish(w, accepted)), s.workers[w].batch[0];
    assert BatchOk(s, w);
    CountSnoc(s.bus, Delivery(head, w, Route(s.workers[w], s.messages[head])));
    forall id | InFlightAt(t, id) && Count(t.bus, id) > 0
      ensures exists v :: Holds(t, v, 0, id) && t.workers[v].phase == Sent
    {
      if Count(s.bus, id) == 0 {
        assert Holds(t, w, 0, id) && t.workers[w].phase == Sent;
      } else {
        var v :| Holds(s, v, 0, id) && s.workers[v].phase == Sent;
        assert Holds(t, v, 0, id) && t.workers[v].phase == Sent;
      }
    }
  }

  lemma OtherStepKeepsSentHeld(s: State, step: Step)
    requires Inv(s) && SentIsHeld(s) && Enabled(s, step) && !step.Publish?
    ensures SentIsHeld(After(s, step))
  {
    var t := After(s, step);
    if step.Poll? || step.FailedPoll? {
      PollEffect(s, step.worker, step.order, step.until);
    }
    forall id | InFlightAt(t, id) && Count(t.bus, id) > 0
      ensures exists v :: Holds(t, v, 0, id) && t.workers[v].phase == Sent
    {
      assert DeliveriesOk(s, id);
      var v :| Holds(s, v, 0, id) && s.workers[v].phase == Sent;
      assert Holds(t, v, 0, id) && t.workers[v].phase == Sent;
    }
  }

  lemma StepKeepsSentHeld(s: State, step: Step)
    requires Inv(s) && SentIsHeld(s)
    ensures SentIsHeld(After(s, step))
  {
    if Enabled(s, step) {
      if step.Publish? {
        PublishKeepsSentHeld(s, step.worker, step.accepted);
      } else {
        OtherStepKeepsSentHeld(s, step);
      }
    }
  }

  lemma {:induction false} RunKeepsSentHeld(first: State, steps: seq<Step>)
    requires Initial(first)
    ensures SentIsHeld(Run(first, steps))
  {
    if steps != [] {
      RunKeepsInv(first, steps[..|steps| - 1]);
      RunKeepsSentHeld(first, steps[..|steps| - 1]);
      StepKeepsSentHeld(Run(first, steps[..|steps| - 1]), steps[|steps| - 1]);
    }
  }

  // ---- Releasing: where it is safe ---------------------------------------------------

  /** `id` is about to be dropped, after a refusal, by the only worker there is. */
  ghost predicate OnlyRefused(s: State, w: nat, id: string)
  {
    Holds(s, w, 0, id) && s.workers[w].phase == Rejected && forall v :: v in s.workers ==> v == w
  }

  /** Some worker has the message, other than that. */
  ghost predicate InSomeBatch(s: State, id: string)
  {
    exists w, i: nat :: Holds(s, w, i, id) && !OnlyRefused(s, w, id)
  }

  lemma ReleasedUnheld(s: State, id: string, error: string)
    requires Inv(s) && SentIsHeld(s) && InFlightAt(s, id) && forall w, i: nat :: !Holds(s, w, i, id)
    ensures Inv(ByHand(s, id, Release(error)))
  {
    assert DeliveriesOk(s, id);
    assert Count(s.bus, id) == 0;
    SameButOneStatus(s, ByHand(s, id, Release(error)), id);
  }

  /** The state with `id` still in flight. */
  function Unreleased(s: State, id: string): State
    requires id in s.messages
  {
    s.(messages := s.messages[id := s.messages[id].(status := InFlight)])
  }

  /** `id` was released by hand while its only worker was about to release it. */
  ghost predicate Pardoned(s: State, w: nat, id: string)
  {
    OnlyRefused(s, w, id) && id in s.messages && s.messages[id].status == Pending && Inv(Unreleased(s, id))
  }

  /** The invariant looks at statuses and destinations only. */
  lemma InvOfStatuses(s: State, t: State)
    requires Inv(s) && t.workers == s.workers && t.bus == s.bus && t.messages.Keys == s.messages.Keys
    requires forall x :: x in s.messages ==> t.messages[x].destination == s.messages[x].destination && t.messages[x].status == s.messages[x].status
    ensures Inv(t)
  {
    forall w ensures BatchOk(t, w) && StatsOk(t, w) {
      assert BatchOk(s, w) && StatsOk(s, w);
    }
    forall v, i: nat, u, j: nat, x | Holds(t, v, i, x) && Holds(t, u, j, x) ensures v == u && i == j {
      assert Holds(s, v, i, x) && Holds(s, u, j, x);
    }
    forall x ensures DeliveriesOk(t, x) {
      assert DeliveriesOk(s, x);
    }
    forall k: nat ensures RoutedOk(t, k) {
      assert RoutedOk(s, k);
    }
  }

  lemma PardonedPromise(s: State, w: nat, id: string)
    requires Pardoned(s, w, id)
    ensures forall x :: DeliveriesOk(s, x)
  {
    var u := Unreleased(s, id);
    assert BatchOk(u, w) && Holds(u, w, 0, id);
    forall x ensures DeliveriesOk(s, x) {
      assert DeliveriesOk(u, x);
    }
  }

  /** The worker drops the message at last. */
  lemma GiveBackEndsPardon(s: State, w: nat, id: string)
    requires Pardoned(s, w, id)
    ensures Inv(After(s, GiveBack(w)))
  {
    var u := Unreleased(s, id);
    StepKeepsInv(u, GiveBack(w));
    InvOfStatuses(After(u, GiveBack(w)), After(s, GiveBack(w)));
  }

  lemma EnqueueKeepsPardon(s: State, x: string, m: MessageState, w: nat, id: string)
    requires Pardoned(s, w, id) && Enabled(s, Enqueue(x, m))
    ensures Pardoned(After(s, Enqueue(x, m)), w, id)
  {
    StepKeepsInv(Unreleased(s, id), Enqueue(x, m));
    assert Unreleased(After(s, Enqueue(x, m)), id) == After(Unreleased(s, id), Enqueue(x, m));
  }

  lemma FailKeepsPardon(s: State, x: string, error: string, w: nat, id: string)
    requires Pardoned(s, w, id) && Enabled(s, FailByHand(x, error))
    ensures if x == id then Inv(After(s, FailByHand(x, error))) else Pardoned(After(s, FailByHand(x, error)), w, id)
  {
    var u, t := Unreleased(s, id), After(s, FailByHand(x, error));
    StepKeepsInv(u, FailByHand(x, error));
    if x == id {
      InvOfStatuses(After(u, FailByHand(x, error)), t);
    } else {
      assert Unreleased(t, id) == After(u, FailByHand(x, error));
    }
  }

  lemma StepKeepsPardon(s: State, step: Step, w: nat, id: string)
    requires Pardoned(s, w, id)
    ensures Pardoned(After(s, step), w, id) || Inv(After(s, step))
  {
    if Enabled(s, step) {
      match step {
        case GiveBack(v) => GiveBackEndsPardon(s, w, id);
        case Enqueue(x, m) => EnqueueKeepsPardon(s, x, m, w, id);
        case FailByHand(x, error) => FailKeepsPardon(s, x, error, w, id);
        case _ =>
      }
    }
  }

  lemma {:induction false} PardonForever(s: State, more: seq<Step>, w: nat, id: string)
    requires Pardoned(s, w, id)
    ensures Pardoned(Run(s, more), w, id) || Inv(Run(s, more))
  {
    if more != [] {
      var front, step := more[..|more| - 1], more[|more| - 1];
      PardonForever(s, front, w, id);
      if Pardoned(Run(s, front), w, id) {
        StepKeepsPardon(Run(s, front), step, w, id);
      } else {
        StepKeepsInv(Run(s, front), step);
      }
    }
  }

  lemma PardonKeepsPromise(s: State, w: nat, id: string)
    requires Pardoned(s, w, id)
    ensures PromiseKept(s) && AtMostOnce(s)
  {
    forall more, x ensures DeliveriesOk(Run(s, more), x) && Count(Run(s, more).bus, x) <= 1 {
      PardonForever(s, more, w, id);
      if Pardoned(Run(s, more), w, id) { PardonedPromise(Run(s, more), w, id); }
    }
  }

  lemma SafeRelease(s: State, id: string, error: string)
    requires Inv(s) && SentIsHeld(s) && !(InFlightAt(s, id) && InSomeBatch(s, id))
    ensures PromiseKept(ByHand(s, id, Release(error))) && AtMostOnce(ByHand(s, id, Release(error)))
  {
    var t := ByHand(s, id, Release(error));
    if !InFlightAt(s, id) {
      NothingByHand(s, id, Release(error));
      InvKeepsPromise(s);
    } else if w, i: nat :| Holds(s, w, i, id) {
      assert OnlyRefused(s, w, id);
      InvOfStatuses(s, Unreleased(t, id));
      PardonKeepsPromise(t, w, id);
    } else {
      ReleasedUnheld(s, id, error);
      InvKeepsPromise(t);
    }
  }

  // ---- Releasing: where it delivers twice --------------------------------------------

  /** Some steps lead from `s` to `t`. */
  ghost predicate Leads(s: State, t: State)
  {
    exists steps :: Run(s, steps) == t
  }

  lemma LeadsOn(s: State, t: State, step: Step)
    requires Leads(s, t)
    ensures Leads(s, After(t, step))
  {
    var steps :| Run(s, steps) == t;
    assert (steps + [step])[..|steps|] == steps;
    assert Run(s, steps + [step]) == After(t, step);
  }

  /** A pending message that is not among the first `n` of a batch, while its worker deals
      with those, is still pending, and the bus and the other workers are as before. */
  ghost predicate Dropped(s: State, t: State, w: nat, n: nat, id: string)
  {
    && w in s.workers && n <= |s.workers[w].batch| && t.workers.Keys == s.workers.Keys
    && t.workers[w].batch == s.workers[w].batch[n..]
    && (n > 0 ==> t.workers[w].phase == Ready) && (n == 0 ==> t.workers[w].phase == s.workers[w].phase)
    && t.bus == s.bus && (forall v :: v in s.workers && v != w ==> t.workers[v] == s.workers[v])
    && id in s.messages && id in t.messages && t.messages[id] == s.messages[id]
  }

  /** A worker refuses or settles the head of its batch, which is not `id`. */
  lemma DropOne(first: State, s: State, w: nat, id: string) returns (t: State)
    requires Leads(first, s) && w in s.workers && s.workers[w].batch != [] && s.workers[w].batch[0] != id && id in s.messages
    ensures Leads(first, t) && Dropped(s, t, w, 1, id)
  {
    t := s;
    if t.workers[w].phase == Ready {
      t := After(s, Publish(w, false));
      LeadsOn(first, s, Publish(w, false));
    }
    var settle := if t.workers[w].phase == Sent then Confirm(w) else GiveBack(w);
    LeadsOn(first, t, settle);
    t := After(t, settle);
  }

  lemma {:induction false} DropFirst(first: State, s: State, w: nat, n: nat, id: string) returns (t: State)
    requires Leads(first, s) && w in s.workers && n <= |s.workers[w].batch| && id in s.messages
    requires forall i :: 0 <= i < n ==> s.workers[w].batch[i] != id
    ensures Leads(first, t) && Dropped(s, t, w, n, id)
  {
    t := s;
    if n > 0 {
      var u := DropFirst(first, s, w, n - 1, id);
      assert u.workers[w].batch[0] == s.workers[w].batch[n - 1];
      t := DropOne(first, u, w, id);
    }
  }

  /** The head of the batch is pending: it is sent, and the completion does nothing. */
  lemma SendPendingHead(first: State, s: State, w: nat, id: string) returns (t: State)
    requires Leads(first, s) && Holds(s, w, 0, id) && s.workers[w].phase == Ready
    requires id in s.messages && s.messages[id].status == Pending
    ensures Leads(first, t) && w in t.workers && t.workers[w].batch == s.workers[w].batch[1..]
    ensures id in t.messages && t.messages[id] == s.messages[id] && Count(t.bus, id) == Count(s.bus, id) + 1
  {
    var u := After(s, Publish(w, true));
    LeadsOn(first, s, Publish(w, true));
    CountSnoc(s.bus, Delivery(id, w, Route(s.workers[w], s.messages[id])));
    LeadsOn(first, u, Confirm(w));
    t := After(u, Confirm(w));
  }

  lemma ClaimOne(first: State, s: State, w: nat, id: string) returns (t: State)
    requires Leads(first, s) && w in s.workers && s.workers[w].batch == [] && id in s.messages && s.messages[id].status == Pending
    ensures Leads(first, t) && Holds(t, w, 0, id) && t.workers[w].batch == [id] && t.workers[w].phase == Ready && t.bus == s.bus
    ensures t.workers.Keys == s.workers.Keys && forall v :: v in s.workers && v != w ==> t.workers[v] == s.workers[v]
    ensures InFlightAt(t, id)
  {
    var order := [id];
    ClaimTakesFirstPending(s.messages, order, [], s.workers[w].name, BATCH_MAX, 0);
    assert PendingIn(s.messages, order) == [id] + PendingIn(s.messages, order[1..]) == [id];
    LeadsOn(first, s, Poll(w, order, 0));
    t := After(s, Poll(w, order, 0));
  }

  /** A message on the bus and pending again is sent a second time. */
  lemma SendAgain(first: State, s: State, w: nat, id: string) returns (t: State)
    requires Leads(first, s) && w in s.workers && id !in s.workers[w].batch
    requires id in s.messages && s.messages[id].status == Pending && Count(s.bus, id) >= 1
    ensures Leads(first, t) && Count(t.bus, id) >= 2
  {
    var u := DropFirst(first, s, w, |s.workers[w].batch|, id);
    var v := ClaimOne(first, u, w, id);
    LeadsOn(first, v, Publish(w, true));
    t := After(v, Publish(w, true));
    CountSnoc(v.bus, Delivery(id, w, Route(v.workers[w], v.messages[id])));
  }

  /** The message is in a batch and not refused there: its worker sends it, or has, and finds
      it pending again. */
  lemma HeldIsSentTwice(s: State, w: nat, i: nat, id: string) returns (t: State)
    requires w in s.workers && i < |s.workers[w].batch| && s.workers[w].batch[i] == id
    requires forall j :: 0 <= j < |s.workers[w].batch| && j != i ==> s.workers[w].batch[j] != id
    requires !(i == 0 && s.workers[w].phase == Rejected) && (i == 0 && s.workers[w].phase == Sent ==> Count(s.bus, id) >= 1)
    requires id in s.messages && s.messages[id].status == Pending
    ensures Leads(s, t) && Count(t.bus, id) >= 2
  {
    assert Run(s, []) == s && Leads(s, s);
    var u := DropFirst(s, s, w, i, id);
    var v: State;
    if u.workers[w].phase == Sent {
      LeadsOn(s, u, Confirm(w));
      v := After(u, Confirm(w));
    } else {
      v := SendPendingHead(s, u, w, id);
    }
    assert v.workers[w].batch == s.workers[w].batch[i + 1..];
    t := SendAgain(s, v, w, id);
  }

  /** The message was refused and is about to be dropped, but another worker claims it before,
      and loses it to that drop. */
  lemma RefusedIsSentTwice(s: State, w: nat, v: nat, id: string) returns (t: State)
    requires Holds(s, w, 0, id) && s.workers[w].phase == Rejected && v in s.workers && v != w && id !in s.workers[v].batch
    requires id in s.messages && s.messages[id].status == Pending
    ensures Leads(s, t) && Count(t.bus, id) >= 2
  {
    assert Run(s, []) == s && Leads(s, s);
    var a := DropFirst(s, s, v, |s.workers[v].batch|, id);
    var b := ClaimOne(s, a, v, id);
    LeadsOn(s, b, GiveBack(w));
    var c := After(b, GiveBack(w));
    var d := SendPendingHead(s, c, v, id);
    t := SendAgain(s, d, v, id);
  }

  lemma UnsafeRelease(s: State, id: string, error: string)
    requires Inv(s) && InFlightAt(s, id) && InSomeBatch(s, id)
    ensures !AtMostOnce(ByHand(s, id, Release(error)))
  {
    var t := ByHand(s, id, Release(error));
    var w, i: nat :| Holds(s, w, i, id) && !OnlyRefused(s, w, id);
    assert BatchOk(s, w) && OneHolder(s);
    forall v, j: nat | Holds(s, v, j, id) ensures v == w && j == i {}
    var u: State;
    if i == 0 && s.workers[w].phase == Rejected {
      var v :| v in s.workers && v != w;
      forall j: nat | j < |s.workers[v].batch| ensures s.workers[v].batch[j] != id {
        assert !Holds(s, v, j, id);
      }
      u := RefusedIsSentTwice(t, w, v, id);
    } else {
      forall j: nat | j < |s.workers[w].batch| && j != i ensures s.workers[w].batch[j] != id {
        assert !Holds(s, w, j, id);
      }
      u := HeldIsSentTwice(t, w, i, id);
    }
    var more :| Run(t, more) == u;
    assert Count(Run(t, more).bus, id) > 1;
  }

  /** A release by hand keeps at-most-once for all continuations if and only if the message is
      not in flight, or in no worker's batch, or only about to be dropped by the one worker
      there is. So it is safe for the messages that failed claims have stranded. */
  lemma ReleaseByHandIff(first: State, steps: seq<Step>, id: string, error: string)
    requires Initial(first)
    ensures var s := Run(first, steps);
      AtMostOnce(ByHand(s, id, Release(error))) <==> !(InFlightAt(s, id) && InSomeBatch(s, id))
  {
    RunKeepsInv(first, steps);
    RunKeepsSentHeld(first, steps);
    var s := Run(first, steps);
    if InFlightAt(s, id) && InSomeBatch(s, id) {
      UnsafeRelease(s, id, error);
    } else {
      SafeRelease(s, id, error);
    }
  }
}
