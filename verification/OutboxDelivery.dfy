/** Which messages the outbox workers can still deliver (src/outbox_worker/thread.rs), when
    some of them have stopped for good. */
module OutboxDelivery {
  import opened OutboxMessages
  import opened OutboxStore
  import opened OutboxWorkers

  // ---- Where the messages in flight are ----------------------------------------------

  ghost predicate InFlightIsHeld(s: State)
  {
    forall id :: id in s.messages && s.messages[id].status == InFlight ==> exists w, i: nat :: Holds(s, w, i, id)
  }

  /** The steps that leave all batches as they are. */
  lemma QuietStepKeepsHeld(s: State, step: Step)
    requires Enabled(s, step) && (step.Enqueue? || step.Publish? || step.FailByHand?) && InFlightIsHeld(s)
    ensures InFlightIsHeld(After(s, step))
  {
    var t := After(s, step);
    forall id | id in t.messages && t.messages[id].status == InFlight ensures exists w, i: nat :: Holds(t, w, i, id) {
      var w, i: nat :| Holds(s, w, i, id);
      assert Holds(t, w, i, id);
    }
  }

  lemma PollKeepsHeld(s: State, w: nat, order: seq<string>, until: nat)
    requires Inv(s) && Enabled(s, Poll(w, order, until)) && InFlightIsHeld(s)
    ensures InFlightIsHeld(After(s, Poll(w, order, until)))
  {
    PollEffect(s, w, order, until);
    var t := After(s, Poll(w, order, until));
    forall id | id in t.messages && t.messages[id].status == InFlight ensures exists v, i: nat :: Holds(t, v, i, id) {
      var ids := t.workers[w].batch;
      if id in ids {
        var i: nat :| i < |ids| && ids[i] == id;
        assert Holds(t, w, i, id);
      } else {
        var v, i: nat :| Holds(s, v, i, id);
        assert Holds(t, v, i, id);
      }
    }
  }

  lemma SettleKeepsHeld(s: State, step: Step)
    requires Inv(s) && Enabled(s, step) && (step.Confirm? || step.GiveBack?) && InFlightIsHeld(s)
    ensures InFlightIsHeld(After(s, step))
  {
    var w, t := step.worker, After(s, step);
    var head := s.workers[w].batch[0];
    assert Holds(s, w, 0, head) && BatchOk(s, w);
    forall id | id in t.messages && t.messages[id].status == InFlight ensures exists v, i: nat :: Holds(t, v, i, id) {
      assert id != head;
      var v, i: nat :| Holds(s, v, i, id);
      assert Holds(t, v, if v == w then i - 1 else i, id);
    }
  }

  lemma StepKeepsHeld(s: State, step: Step)
    requires Inv(s) && InFlightIsHeld(s) && !step.FailedPoll?
    ensures InFlightIsHeld(After(s, step))
  {
    if Enabled(s, step) {
      match step {
        case Poll(w, order, until) => PollKeepsHeld(s, w, order, until);
        case Confirm(_) => SettleKeepsHeld(s, step);
        case GiveBack(_) => SettleKeepsHeld(s, step);
        case FailedPoll(_, _, _) =>
        case _ => QuietStepKeepsHeld(s, step);
      }
    }
  }

  /** As long as no claim fails, every message in flight is in some worker's batch. */
  lemma {:induction false} InFlightMessagesAreHeld(s: State, steps: seq<Step>)
    requires Initial(s) && forall i :: 0 <= i < |steps| ==> !steps[i].FailedPoll?
    ensures InFlightIsHeld(Run(s, steps))
  {
    if steps != [] {
      InFlightMessagesAreHeld(s, steps[..|steps| - 1]);
      RunKeepsInv(s, steps[..|steps| - 1]);
      StepKeepsHeld(Run(s, steps[..|steps| - 1]), steps[|steps| - 1]);
    }
  }

  // ---- What can be delivered ---------------------------------------------------------

  /** The message is the head of the batch, was refused by the bus, and then failed by hand:
      its worker will only drop it. */
  predicate Spent(s: State, w: nat, i: nat, id: string)
  {
    i == 0 && w in s.workers && s.workers[w].phase == Rejected && id in s.messages && s.messages[id].status == Failed
  }

  /** A message is deliverable when it is pending, or in the batch of a worker that goes on,
      and not about to be dropped there. */
  ghost predicate Deliverable(s: State, stopped: set<nat>, id: string)
  {
    id in s.messages &&
    (s.messages[id].status == Pending || exists w, i: nat :: w !in stopped && Holds(s, w, i, id) && !Spent(s, w, i, id))
  }

  /** No stopped worker takes a step. */
  ghost predicate Spares(steps: seq<Step>, stopped: set<nat>)
  {
    forall n, w :: 0 <= n < |steps| && w in stopped ==> !TakenBy(steps[n], w)
  }

  ghost predicate Hopeless(s: State, stopped: set<nat>, id: string)
  {
    Inv(s) && id in s.messages && Count(s.bus, id) == 0 && !Deliverable(s, stopped, id)
  }

  lemma HolderIsStoppedOrSpent(s: State, stopped: set<nat>, id: string, w: nat, i: nat)
    requires Hopeless(s, stopped, id) && Holds(s, w, i, id)
    ensures w in stopped || Spent(s, w, i, id)
  {
  }

  /** The steps that change no batch: a failed claim, a new message, a failure by hand. */
  lemma QuietStepKeepsHopeless(s: State, step: Step, stopped: set<nat>, id: string)
    requires Hopeless(s, stopped, id) && Enabled(s, step) && (step.FailedPoll? || step.Enqueue? || step.FailByHand?)
    ensures Hopeless(After(s, step), stopped, id)
  {
    var t := After(s, step);
    StepKeepsInv(s, step);
    if step.FailedPoll? {
      PollEffect(s, step.worker, step.order, step.until);
    }
    forall w, i: nat | w !in stopped && Holds(t, w, i, id) ensures Spent(t, w, i, id) {
      assert Holds(s, w, i, id);
      HolderIsStoppedOrSpent(s, stopped, id, w, i);
    }
  }

  lemma PollKeepsHopeless(s: State, w: nat, order: seq<string>, until: nat, stopped: set<nat>, id: string)
    requires Hopeless(s, stopped, id) && Enabled(s, Poll(w, order, until))
    ensures Hopeless(After(s, Poll(w, order, until)), stopped, id)
  {
    var t := After(s, Poll(w, order, until));
    StepKeepsInv(s, Poll(w, order, until));
    PollEffect(s, w, order, until);
    forall v, i: nat | v !in stopped && Holds(t, v, i, id) ensures Spent(t, v, i, id) {
      assert v != w;
      assert Holds(s, v, i, id);
      HolderIsStoppedOrSpent(s, stopped, id, v, i);
    }
  }

  lemma PublishKeepsHopeless(s: State, w: nat, accepted: bool, stopped: set<nat>, id: string)
    requires Hopeless(s, stopped, id) && Enabled(s, Publish(w, accepted)) && w !in stopped
    ensures Hopeless(After(s, Publish(w, accepted)), stopped, id)
  {
    var t, head := After(s, Publish(w, accepted)), s.workers[w].batch[0];
    StepKeepsInv(s, Publish(w, accepted));
    assert Holds(s, w, 0, head);
    if head == id {
      HolderIsStoppedOrSpent(s, stopped, id, w, 0);
    }
    if accepted && head in s.messages {
      CountSnoc(s.bus, Delivery(head, w, Route(s.workers[w], s.messages[head])));
    }
    forall v, i: nat | v !in stopped && Holds(t, v, i, id) ensures Spent(t, v, i, id) {
      assert Holds(s, v, i, id);
      HolderIsStoppedOrSpent(s, stopped, id, v, i);
    }
  }

  lemma SettleKeepsHopeless(s: State, step: Step, stopped: set<nat>, id: string)
    requires Hopeless(s, stopped, id) && Enabled(s, step) && (step.Confirm? || step.GiveBack?) && step.worker !in stopped
    ensures Hopeless(After(s, step), stopped, id)
  {
    var w, t := step.worker, After(s, step);
    var head := s.workers[w].batch[0];
    StepKeepsInv(s, step);
    assert Holds(s, w, 0, head) && BatchOk(s, w);
    if head == id {
      HolderIsStoppedOrSpent(s, stopped, id, w, 0);
    }
    forall v, i: nat | v !in stopped && Holds(t, v, i, id) ensures Spent(t, v, i, id) {
      var k := if v == w then i + 1 else i;
      assert Holds(s, v, k, id);
      HolderIsStoppedOrSpent(s, stopped, id, v, k);
    }
  }

  lemma StepKeepsHopeless(s: State, step: Step, stopped: set<nat>, id: string)
    requires Hopeless(s, stopped, id) && forall w :: w in stopped ==> !TakenBy(step, w)
    ensures Hopeless(After(s, step), stopped, id)
  {
    if Enabled(s, step) {
      match step {
        case Poll(w, order, until) => PollKeepsHopeless(s, w, order, until, stopped, id);
        case Publish(w, accepted) => PublishKeepsHopeless(s, w, accepted, stopped, id);
        case Confirm(_) => SettleKeepsHopeless(s, step, stopped, id);
        case GiveBack(_) => SettleKeepsHopeless(s, step, stopped, id);
        case _ => QuietStepKeepsHopeless(s, step, stopped, id);
      }
    }
  }

  lemma {:induction false} HopelessForever(s: State, more: seq<Step>, stopped: set<nat>, id: string)
    requires Hopeless(s, stopped, id) && Spares(more, stopped)
    ensures Hopeless(Run(s, more), stopped, id)
  {
    if more != [] {
      HopelessForever(s, more[..|more| - 1], stopped, id);
      StepKeepsHopeless(Run(s, more[..|more| - 1]), more[|more| - 1], stopped, id);
    }
  }

  // ---- How it is delivered -----------------------------------------------------------

  /** Worker `w` gets from `s` to `t` on its own, and has dealt with the head of its batch
      without touching any other message, or the bus. */
  ghost predicate DroppedHead(s: State, t: State, w: nat)
  {
    && Reaches(s, t, w) && Inv(t) && t.bus == s.bus
    && w in s.workers && s.workers[w].batch != [] && t.workers.Keys == s.workers.Keys
    && t.workers[w].batch == s.workers[w].batch[1..] && t.workers[w].phase == Ready
    && forall id :: id in s.messages && id != s.workers[w].batch[0] ==> id in t.messages && t.messages[id] == s.messages[id]
  }

  /** One of the worker's own steps. */
  lemma OwnStep(first: State, s: State, w: nat, step: Step) returns (t: State)
    requires Reaches(first, s, w) && Inv(s) && TakenBy(step, w)
    ensures t == After(s, step) && Reaches(first, t, w) && Inv(t)
  {
    t := After(s, step);
    ReachesFurther(first, s, w, step);
    StepKeepsInv(s, step);
  }

  lemma DropHead(s: State, w: nat) returns (t: State)
    requires Inv(s) && w in s.workers && s.workers[w].batch != []
    ensures DroppedHead(s, t, w)
  {
    ReachesItself(s, w);
    assert BatchOk(s, w);
    t := s;
    if t.workers[w].phase == Ready {
      t := OwnStep(s, t, w, Publish(w, false));
    }
    if t.workers[w].phase == Sent {
      t := OwnStep(s, t, w, Confirm(w));
    } else {
      t := OwnStep(s, t, w, GiveBack(w));
    }
  }

  /** `t` is reached by worker `w` alone, and there `id` is on the bus. */
  ghost predicate DeliversAt(s: State, t: State, w: nat, id: string)
  {
    Reaches(s, t, w) && Count(t.bus, id) > 0
  }

  lemma PublishHead(s: State, w: nat, id: string) returns (t: State)
    requires Inv(s) && Holds(s, w, 0, id) && s.workers[w].phase == Ready
    ensures DeliversAt(s, t, w, id)
  {
    ReachesItself(s, w);
    assert BatchOk(s, w);
    t := OwnStep(s, s, w, Publish(w, true));
    CountSnoc(s.bus, Delivery(id, w, Route(s.workers[w], s.messages[id])));
  }

  /** A worker with nothing to do claims the one message it looks at. */
  lemma PollOfOne(s: State, w: nat, id: string)
    requires Inv(s) && w in s.workers && s.workers[w].batch == [] && id in s.messages && s.messages[id].status == Pending
    ensures var t := After(s, Poll(w, [id], 0));
      && Inv(t) && w in t.workers && t.workers[w].batch == [id] && t.workers[w].phase == Ready && t.bus == s.bus
      && id in t.messages && t.messages[id].status == InFlight
  {
    var order := [id];
    StepKeepsInv(s, Poll(w, order, 0));
    ClaimTakesFirstPending(s.messages, order, [], s.workers[w].name, BATCH_MAX, 0);
    assert PendingIn(s.messages, order) == [id] + PendingIn(s.messages, order[1..]) == [id];
  }

  /** A worker with nothing left claims a pending message and sends it. */
  lemma ClaimAndPublish(s: State, w: nat, id: string) returns (t: State)
    requires Inv(s) && w in s.workers && s.workers[w].batch == []
    requires id in s.messages && s.messages[id].status == Pending
    ensures DeliversAt(s, t, w, id)
  {
    ReachesItself(s, w);
    PollOfOne(s, w, id);
    var u := OwnStep(s, s, w, Poll(w, [id], 0));
    assert Holds(u, w, 0, id);
    t := PublishHead(u, w, id);
    ReachesOn(s, u, t, w);
  }

  lemma {:induction false} DeliverPending(s: State, w: nat, id: string) returns (t: State)
    requires Inv(s) && w in s.workers && id in s.messages && s.messages[id].status == Pending
    ensures DeliversAt(s, t, w, id)
    decreases |s.workers[w].batch|
  {
    if s.workers[w].batch == [] {
      t := ClaimAndPublish(s, w, id);
    } else {
      assert BatchOk(s, w);
      var u := DropHead(s, w);
      t := DeliverPending(u, w, id);
      ReachesOn(s, u, t, w);
    }
  }

  lemma {:induction false} DeliverHeld(s: State, w: nat, i: nat, id: string) returns (t: State)
    requires Inv(s) && Holds(s, w, i, id) && Count(s.bus, id) == 0 && !Spent(s, w, i, id)
    ensures DeliversAt(s, t, w, id)
    decreases i
  {
    assert BatchOk(s, w);
    if i > 0 {
      assert Holds(s, w, 0, s.workers[w].batch[0]);
      var u := DropHead(s, w);
      assert Holds(u, w, i - 1, id);
      t := DeliverHeld(u, w, i - 1, id);
      ReachesOn(s, u, t, w);
    } else if s.workers[w].phase == Ready {
      t := PublishHead(s, w, id);
    } else {
      ReachesItself(s, w);
      assert DeliveriesOk(s, id);
      var u := OwnStep(s, s, w, GiveBack(w));
      t := DeliverPending(u, w, id);
      ReachesOn(s, u, t, w);
    }
  }

  // ---- Main results ------------------------------------------------------------------

  lemma OwnStepsSpare(steps: seq<Step>, w: nat, stopped: set<nat>)
    requires OwnSteps(steps, w) && w !in stopped
    ensures Spares(steps, stopped)
  {
  }

  lemma DeliveredByOne(s: State, t: State, w: nat, stopped: set<nat>, id: string)
    requires DeliversAt(s, t, w, id) && w !in stopped
    ensures exists more :: Spares(more, stopped) && Count(Run(s, more).bus, id) > 0
  {
    var more :| Run(s, more) == t && OwnSteps(more, w);
    OwnStepsSpare(more, w, stopped);
  }

  /** Exactly when an undelivered message can still get on the bus: in any reachable state,
      with any set of workers that have stopped and one that has not, some continuation
      without the stopped workers delivers it if and only if it is pending, or in the batch
      of a worker that has not stopped and not at the point of being dropped there. */
  lemma DeliverableIff(first: State, steps: seq<Step>, stopped: set<nat>, live: nat, id: string)
    requires Initial(first) && live in Run(first, steps).workers && live !in stopped
    requires id in Run(first, steps).messages && Count(Run(first, steps).bus, id) == 0
    ensures var s := Run(first, steps);
      (exists more :: Spares(more, stopped) && Count(Run(s, more).bus, id) > 0) <==> Deliverable(s, stopped, id)
  {
    RunKeepsInv(first, steps);
    var s := Run(first, steps);
    if !Deliverable(s, stopped, id) {
      forall more | Spares(more, stopped) ensures Count(Run(s, more).bus, id) == 0 {
        HopelessForever(s, more, stopped, id);
      }
    } else if s.messages[id].status == Pending {
      var t := DeliverPending(s, live, id);
      DeliveredByOne(s, t, live, stopped, id);
    } else {
      var w, i: nat :| w !in stopped && Holds(s, w, i, id) && !Spent(s, w, i, id);
      var t := DeliverHeld(s, w, i, id);
      DeliveredByOne(s, t, w, stopped, id);
    }
  }

  lemma RunOfTwo(s: State, one: Step, two: Step)
    ensures Run(s, [one, two]) == After(After(s, one), two)
  {
    assert [one, two][..1] == [one] && [one][..0] == [];
    assert Run(s, [one]) == After(Run(s, []), one);
  }

  /** Such states are reached: a message is enqueued, a worker claims it and stops; whatever
      the other workers do, it is not delivered. */
  lemma ClaimThenStopStrands(first: State, w: nat, id: string, m: MessageState, more: seq<Step>)
    requires Initial(first) && w in first.workers && m.status == Pending && Spares(more, {w})
    ensures var s := Run(first, [Enqueue(id, m), Poll(w, [id], 0)]);
      && Holds(s, w, 0, id) && Count(s.bus, id) == 0 && !Deliverable(s, {w}, id)
      && Count(Run(s, more).bus, id) == 0
  {
    var one := After(first, Enqueue(id, m));
    RunKeepsInv(first, []);
    StepKeepsInv(first, Enqueue(id, m));
    PollOfOne(one, w, id);
    RunOfTwo(first, Enqueue(id, m), Poll(w, [id], 0));
    var s := After(one, Poll(w, [id], 0));
    assert Holds(s, w, 0, id);
    forall v, i: nat | Holds(s, v, i, id) ensures v == w {}
    HopelessForever(s, more, {w}, id);
  }
}
