/** Outbox worker threads (src/outbox_worker/thread.rs) sharing one store and one bus. The
    steps of different workers interleave freely: a claim, each publish, and each complete or
    release are separate. A publish either puts the message on the bus or fails without
    effect; a claim that fails hands out nothing, but may have put messages in flight; a stopped
    worker is one that takes no more steps. The store operations act on messages as
    `OutboxStore.ClaimRefines` and `OutboxStore.SettleRefines` show. */
module OutboxWorkers {
  import opened Basics
  import opened OutboxMessages
  import opened OutboxStore

  /** Where a worker stands with the first message of its batch. */
  datatype Phase = Ready | Sent | Rejected

  datatype Worker = Worker(name: string, routed: bool, batch: seq<string>, phase: Phase, published: nat, failed: nat)

  /** A message on the bus: in a named queue, or in the fan-out log. */
  datatype Delivery = Delivery(id: string, sender: nat, queue: Option<string>)

  datatype State = State(messages: Messages, workers: map<nat, Worker>, bus: seq<Delivery>)

  const BATCH_MAX := 100
  const PUBLISH_FAILED := "publish failed"

  datatype Step =
    | Enqueue(id: string, message: MessageState)
    | Poll(worker: nat, order: seq<string>, until: nat)
    | FailedPoll(worker: nat, order: seq<string>, until: nat)   // `order` up to the log that does not hydrate
    | Publish(worker: nat, accepted: bool)
    | Confirm(worker: nat)
    | GiveBack(worker: nat)
    | FailByHand(id: string, error: string)

  ghost predicate Enabled(s: State, step: Step)
  {
    match step
    case Enqueue(id, m) => id !in s.messages && m.status == Pending
    case Poll(w, order, _) => w in s.workers && s.workers[w].batch == [] && NoRepeats(order)
    case FailedPoll(w, order, _) => w in s.workers && s.workers[w].batch == [] && NoRepeats(order)
    case Publish(w, _) => w in s.workers && s.workers[w].batch != [] && s.workers[w].phase == Ready
    case Confirm(w) => w in s.workers && s.workers[w].batch != [] && s.workers[w].phase == Sent
    case GiveBack(w) => w in s.workers && s.workers[w].batch != [] && s.workers[w].phase == Rejected
    case FailByHand(id, _) => id in s.messages
  }

  /** complete, release and fail on a stored message; nothing happens when it is not there. */
  function Settle(messages: Messages, id: string, c: Command): Messages
  {
    if id in messages then messages[id := Applied(messages[id], c)] else messages
  }

  function Route(w: Worker, m: MessageState): Option<string>
  {
    if w.routed then m.destination else None
  }

  /** A step that is not enabled does nothing. */
  ghost function After(s: State, step: Step): State
  {
    if !Enabled(s, step) then s else
    match step
    case Enqueue(id, m) => s.(messages := s.messages[id := m])
    case Poll(w, order, until) =>
      var (messages, ids) := ClaimView(s.messages, order, [], s.workers[w].name, BATCH_MAX, until);
      s.(messages := messages, workers := s.workers[w := s.workers[w].(batch := ids, phase := Ready)])
    case FailedPoll(w, order, until) =>
      s.(messages := ClaimView(s.messages, order, [], s.workers[w].name, BATCH_MAX, until).0)
    case Publish(w, accepted) =>
      var worker := s.workers[w];
      var id := worker.batch[0];
      if accepted && id in s.messages then
        s.(bus := s.bus + [Delivery(id, w, Route(worker, s.messages[id]))], workers := s.workers[w := worker.(phase := Sent)])
      else s.(workers := s.workers[w := worker.(phase := Rejected)])
    case Confirm(w) =>
      var worker := s.workers[w];
      s.(messages := Settle(s.messages, worker.batch[0], Complete),
         workers := s.workers[w := worker.(batch := worker.batch[1..], phase := Ready, published := worker.published + 1)])
    case GiveBack(w) =>
      var worker := s.workers[w];
      s.(messages := Settle(s.messages, worker.batch[0], Release(PUBLISH_FAILED)),
         workers := s.workers[w := worker.(batch := worker.batch[1..], phase := Ready, failed := worker.failed + 1)])
    case FailByHand(id, error) => s.(messages := Settle(s.messages, id, Fail(error)))
  }

  ghost function Run(s: State, steps: seq<Step>): State
  {
    if steps == [] then s else After(Run(s, steps[..|steps| - 1]), steps[|steps| - 1])
  }

  /** No messages and an empty bus; workers have no batch and no statistics. */
  predicate Initial(s: State)
  {
    s.messages == map[] && s.bus == [] &&
    forall w :: w in s.workers ==>
      s.workers[w].batch == [] && s.workers[w].phase == Ready && s.workers[w].published == 0 && s.workers[w].failed == 0
  }

  function Count(bus: seq<Delivery>, id: string): nat
  {
    if bus == [] then 0 else Count(bus[..|bus| - 1], id) + if bus[|bus| - 1].id == id then 1 else 0
  }

  function CountBy(bus: seq<Delivery>, w: nat): nat
  {
    if bus == [] then 0 else CountBy(bus[..|bus| - 1], w) + if bus[|bus| - 1].sender == w then 1 else 0
  }

  // ---- The invariant -----------------------------------------------------------------

  /** A message in a batch was claimed and not settled; only the head can be on the bus. */
  ghost predicate BatchOk(s: State, w: nat)
  {
    w in s.workers ==>
      var worker := s.workers[w];
      && (worker.phase != Ready ==> worker.batch != [])
      && forall i :: 0 <= i < |worker.batch| ==>
           var id := worker.batch[i];
           && id in s.messages
           && s.messages[id].status != Pending
           && Count(s.bus, id) == if i == 0 && worker.phase == Sent then 1 else 0
  }

  ghost predicate Holds(s: State, w: nat, i: nat, id: string)
  {
    w in s.workers && i < |s.workers[w].batch| && s.workers[w].batch[i] == id
  }

  /** No message is in two batches, or twice in one. */
  ghost predicate OneHolder(s: State)
  {
    forall w, i: nat, v, j: nat, id :: Holds(s, w, i, id) && Holds(s, v, j, id) ==> w == v && i == j
  }

  ghost predicate DeliveriesOk(s: State, id: string)
  {
    var n := Count(s.bus, id);
    && n <= 1
    && (id !in s.messages ==> n == 0)
    && (id in s.messages && s.messages[id].status == Pending ==> n == 0)
    && (id in s.messages && s.messages[id].status == Published ==> n == 1)
  }

  ghost predicate RoutedOk(s: State, k: nat)
  {
    k < |s.bus| ==>
      var d := s.bus[k];
      d.id in s.messages && d.sender in s.workers && d.queue == Route(s.workers[d.sender], s.messages[d.id])
  }

  ghost predicate StatsOk(s: State, w: nat)
  {
    CountBy(s.bus, w) == if w !in s.workers then 0 else s.workers[w].published + if s.workers[w].phase == Sent then 1 else 0
  }

  ghost predicate Inv(s: State)
  {
    && (forall w :: BatchOk(s, w))
    && OneHolder(s)
    && (forall id :: DeliveriesOk(s, id))
    && (forall k: nat :: RoutedOk(s, k))
    && (forall w :: StatsOk(s, w))
  }

  lemma CountSnoc(bus: seq<Delivery>, d: Delivery)
    ensures forall id :: Count(bus + [d], id) == Count(bus, id) + if d.id == id then 1 else 0
    ensures forall w :: CountBy(bus + [d], w) == CountBy(bus, w) + if d.sender == w then 1 else 0
  {
    assert (bus + [d])[..|bus|] == bus;
  }

  lemma {:induction false} PendingIsDistinct(messages: Messages, order: seq<string>)
    requires NoRepeats(order)
    ensures NoRepeats(PendingIn(messages, order))
  {
    if order != [] {
      PendingIsDistinct(messages, order[1..]);
      PendingMembers(messages, order[1..]);
      forall id | id in PendingIn(messages, order[1..]) ensures id != order[0] {
        assert id in order[1..];
      }
    }
  }

  /** What a poll changes: it takes distinct pending messages and puts them in flight. */
  lemma PollEffect(s: State, w: nat, order: seq<string>, until: nat)
    requires Enabled(s, Poll(w, order, until))
    ensures var t := After(s, Poll(w, order, until));
      var ids := t.workers[w].batch;
      && t == s.(messages := t.messages, workers := s.workers[w := s.workers[w].(batch := ids, phase := Ready)])
      && NoRepeats(ids)
      && t.messages.Keys == s.messages.Keys
      && (forall id :: id in ids ==> id in s.messages && s.messages[id].status == Pending)
      && (forall id :: id in s.messages ==>
           t.messages[id] == if id in ids then Applied(s.messages[id], Claim(s.workers[w].name, until)) else s.messages[id])
  {
    ClaimTakesFirstPending(s.messages, order, [], s.workers[w].name, BATCH_MAX, until);
    PendingIsDistinct(s.messages, order);
    PendingMembers(s.messages, order);
  }

  lemma PollKeepsInv(s: State, w: nat, order: seq<string>, until: nat)
    requires Inv(s) && Enabled(s, Poll(w, order, until))
    ensures Inv(After(s, Poll(w, order, until)))
  {
    PollEffect(s, w, order, until);
    var t := After(s, Poll(w, order, until));
    forall v ensures BatchOk(t, v) && StatsOk(t, v) {
      assert BatchOk(s, v) && StatsOk(s, v);
      forall i | v in t.workers && 0 <= i < |t.workers[v].batch| ensures DeliveriesOk(s, t.workers[v].batch[i]) {}
    }
    forall v, i: nat, u, j: nat, id | Holds(t, v, i, id) && Holds(t, u, j, id) ensures v == u && i == j {
      if v != w { assert Holds(s, v, i, id) && BatchOk(s, v); }
      if u != w { assert Holds(s, u, j, id) && BatchOk(s, u); }
    }
    forall id ensures DeliveriesOk(t, id) {
      assert DeliveriesOk(s, id);
    }
    forall k: nat ensures RoutedOk(t, k) {
      assert RoutedOk(s, k);
    }
  }

  lemma FailedPollKeepsInv(s: State, w: nat, order: seq<string>, until: nat)
    requires Inv(s) && Enabled(s, FailedPoll(w, order, until))
    ensures Inv(After(s, FailedPoll(w, order, until)))
  {
    PollEffect(s, w, order, until);
    var t := After(s, FailedPoll(w, order, until));
    forall v ensures BatchOk(t, v) && StatsOk(t, v) {
      assert BatchOk(s, v) && StatsOk(s, v);
    }
    forall v, i: nat, u, j: nat, id | Holds(t, v, i, id) && Holds(t, u, j, id) ensures v == u && i == j {
      assert Holds(s, v, i, id) && Holds(s, u, j, id);
    }
    forall id ensures DeliveriesOk(t, id) {
      assert DeliveriesOk(s, id);
    }
    forall k: nat ensures RoutedOk(t, k) {
      assert RoutedOk(s, k);
    }
  }

  lemma PublishKeepsInv(s: State, w: nat, accepted: bool)
    requires Inv(s) && Enabled(s, Publish(w, accepted))
    ensures Inv(After(s, Publish(w, accepted)))
  {
    var t, id := After(s, Publish(w, accepted)), s.workers[w].batch[0];
    assert BatchOk(s, w) && Holds(s, w, 0, id);
    if accepted {
      CountSnoc(s.bus, Delivery(id, w, Route(s.workers[w], s.messages[id])));
    }
    forall v ensures BatchOk(t, v) {
      assert BatchOk(s, v);
      forall i | v in t.workers && 0 <= i < |t.workers[v].batch| && t.workers[v].batch[i] == id ensures v == w && i == 0 {
        assert Holds(s, v, i, id);
      }
    }
    forall v ensures StatsOk(t, v) {
      assert StatsOk(s, v);
    }
    forall v, i: nat, u, j: nat, m | Holds(t, v, i, m) && Holds(t, u, j, m) ensures v == u && i == j {
      assert Holds(s, v, i, m) && Holds(s, u, j, m);
    }
    forall m ensures DeliveriesOk(t, m) {
      assert DeliveriesOk(s, m);
    }
    forall k: nat ensures RoutedOk(t, k) {
      assert RoutedOk(s, k);
    }
  }

  /** Settling the head of a batch and dropping it. */
  lemma SettleKeepsInv(s: State, w: nat, c: Command, t: State)
    requires Inv(s) && w in s.workers && s.workers[w].batch != []
    requires var worker := s.workers[w];
      && ((c == Complete && worker.phase == Sent) || (c == Release(PUBLISH_FAILED) && worker.phase == Rejected))
      && t.messages == Settle(s.messages, worker.batch[0], c)
      && t.bus == s.bus
      && t.workers.Keys == s.workers.Keys
      && t.workers[w].batch == worker.batch[1..] && t.workers[w].phase == Ready && t.workers[w].routed == worker.routed
      && t.workers[w].published == worker.published + (if c == Complete then 1 else 0)
      && forall v :: v in s.workers && v != w ==> t.workers[v] == s.workers[v]
    ensures Inv(t)
  {
    var id := s.workers[w].batch[0];
    assert BatchOk(s, w) && Holds(s, w, 0, id) && DeliveriesOk(s, id);
    forall v ensures BatchOk(t, v) {
      assert BatchOk(s, v);
      if v in t.workers {
        forall i | 0 <= i < |t.workers[v].batch| ensures t.workers[v].batch[i] != id {
          assert Holds(s, v, if v == w then i + 1 else i, t.workers[v].batch[i]);
        }
      }
    }
    forall v ensures StatsOk(t, v) {
      assert StatsOk(s, v);
    }
    forall v, i: nat, u, j: nat, m | Holds(t, v, i, m) && Holds(t, u, j, m) ensures v == u && i == j {
      assert Holds(s, v, if v == w then i + 1 else i, m);
      assert Holds(s, u, if u == w then j + 1 else j, m);
    }
    forall m ensures DeliveriesOk(t, m) {
      assert DeliveriesOk(s, m);
    }
    forall k: nat ensures RoutedOk(t, k) {
      assert RoutedOk(s, k);
    }
  }

  lemma MessageStepKeepsInv(s: State, step: Step)
    requires Inv(s) && Enabled(s, step) && (step.Enqueue? || step.FailByHand?)
    ensures Inv(After(s, step))
  {
    var t := After(s, step);
    forall w ensures BatchOk(t, w) && StatsOk(t, w) {
      assert BatchOk(s, w) && StatsOk(s, w);
    }
    forall v, i: nat, u, j: nat, m | Holds(t, v, i, m) && Holds(t, u, j, m) ensures v == u && i == j {
      assert Holds(s, v, i, m) && Holds(s, u, j, m);
    }
    forall id ensures DeliveriesOk(t, id) {
      assert DeliveriesOk(s, id);
    }
    forall k: nat ensures RoutedOk(t, k) {
      assert RoutedOk(s, k);
    }
  }

  lemma StepKeepsInv(s: State, step: Step)
    requires Inv(s)
    ensures Inv(After(s, step))
  {
    if Enabled(s, step) {
      match step {
        case Poll(w, order, until) => PollKeepsInv(s, w, order, until);
        case FailedPoll(w, order, until) => FailedPollKeepsInv(s, w, order, until);
        case Publish(w, accepted) => PublishKeepsInv(s, w, accepted);
        case Confirm(w) => SettleKeepsInv(s, w, Complete, After(s, step));
        case GiveBack(w) => SettleKeepsInv(s, w, Release(PUBLISH_FAILED), After(s, step));
        case _ => MessageStepKeepsInv(s, step);
      }
    }
  }

  lemma {:induction false} InvForever(s: State, steps: seq<Step>)
    requires Inv(s)
    ensures Inv(Run(s, steps))
  {
    if steps != [] {
      InvForever(s, steps[..|steps| - 1]);
      StepKeepsInv(Run(s, steps[..|steps| - 1]), steps[|steps| - 1]);
    }
  }

  lemma RunKeepsInv(s: State, steps: seq<Step>)
    requires Initial(s)
    ensures Inv(Run(s, steps))
  {
    assert Inv(s);
    InvForever(s, steps);
  }

  // ---- Main results ------------------------------------------------------------------

  /** In every run the workers put a message on the bus at most once, exactly once if it
      is stored as Published, and never while it is Pending. */
  lemma DeliveredAtMostOnce(s: State, steps: seq<Step>, id: string)
    requires Initial(s)
    ensures var t := Run(s, steps);
      && Count(t.bus, id) <= 1
      && (id in t.messages && t.messages[id].status == Published ==> Count(t.bus, id) == 1)
      && (id in t.messages && t.messages[id].status == Pending ==> Count(t.bus, id) == 0)
  {
    RunKeepsInv(s, steps);
    assert DeliveriesOk(Run(s, steps), id);
  }

  /** When all workers are routed ones, every delivery is in the message's destination
      queue, or in the fan-out log when it has none. */
  lemma DeliveredToDestination(s: State, steps: seq<Step>, k: nat)
    requires Initial(s) && (forall w :: w in s.workers ==> s.workers[w].routed)
    requires k < |Run(s, steps).bus|
    ensures var t := Run(s, steps);
      t.bus[k].id in t.messages && t.bus[k].queue == t.messages[t.bus[k].id].destination
  {
    RunKeepsInv(s, steps);
    RoutedStays(s, steps);
    assert RoutedOk(Run(s, steps), k);
  }

  /** With workers of both kinds on one bus: what a routed worker delivers is in the message's
      destination queue, if it has one, and all else is in the fan-out log. */
  lemma DeliveredByKind(s: State, steps: seq<Step>, k: nat)
    requires Initial(s) && k < |Run(s, steps).bus|
    ensures var t := Run(s, steps);
      var d := t.bus[k];
      && d.id in t.messages && d.sender in s.workers
      && (d.queue.Some? <==> s.workers[d.sender].routed && t.messages[d.id].destination.Some?)
      && (d.queue.Some? ==> d.queue == t.messages[d.id].destination)
  {
    RunKeepsInv(s, steps);
    RoutedStays(s, steps);
    assert RoutedOk(Run(s, steps), k);
  }

  lemma {:induction false} RoutedStays(s: State, steps: seq<Step>)
    ensures var t := Run(s, steps);
      t.workers.Keys == s.workers.Keys && forall w :: w in s.workers ==> t.workers[w].routed == s.workers[w].routed
  {
    if steps != [] {
      RoutedStays(s, steps[..|steps| - 1]);
    }
  }

  /** A worker's `messages_published` counts its deliveries, but for one in doubt between
      publish and complete. */
  lemma StatsCountDeliveries(s: State, steps: seq<Step>, w: nat)
    requires Initial(s) && w in s.workers
    ensures var t := Run(s, steps);
      w in t.workers && CountBy(t.bus, w) == t.workers[w].published + if t.workers[w].phase == Sent then 1 else 0
  {
    RunKeepsInv(s, steps);
    RoutedStays(s, steps);
    assert StatsOk(Run(s, steps), w);
  }

  predicate TakenBy(step: Step, w: nat)
  {
    match step
    case Poll(v, _, _) => v == w
    case FailedPoll(v, _, _) => v == w
    case Publish(v, _) => v == w
    case Confirm(v) => v == w
    case GiveBack(v) => v == w
    case _ => false
  }

  // ---- Runs of one worker ------------------------------------------------------------

  /** `t` is reached from `s` by steps of worker `w`. */
  ghost predicate Reaches(s: State, t: State, w: nat)
  {
    exists steps :: Run(s, steps) == t && OwnSteps(steps, w)
  }

  ghost predicate OwnSteps(steps: seq<Step>, w: nat)
  {
    forall i :: 0 <= i < |steps| ==> TakenBy(steps[i], w)
  }

  lemma ReachesItself(s: State, w: nat)
    ensures Reaches(s, s, w)
  {
    assert Run(s, []) == s && OwnSteps([], w);
  }

  lemma ReachesFurther(s: State, t: State, w: nat, step: Step)
    requires Reaches(s, t, w) && TakenBy(step, w)
    ensures Reaches(s, After(t, step), w)
  {
    var steps :| Run(s, steps) == t && OwnSteps(steps, w);
    var more := steps + [step];
    assert more[..|steps|] == steps;
    assert Run(s, more) == After(t, step) && OwnSteps(more, w);
  }

  lemma {:induction false} RunConcat(s: State, a: seq<Step>, b: seq<Step>)
    ensures Run(s, a + b) == Run(Run(s, a), b)
  {
    if b == [] {
      assert a + b == a;
    } else {
      assert (a + b)[..|a + b| - 1] == a + b[..|b| - 1];
      RunConcat(s, a, b[..|b| - 1]);
    }
  }

  lemma ReachesOn(s: State, t: State, u: State, w: nat)
    requires Reaches(s, t, w) && Reaches(t, u, w)
    ensures Reaches(s, u, w)
  {
    var a :| Run(s, a) == t && OwnSteps(a, w);
    var b :| Run(t, b) == u && OwnSteps(b, w);
    RunConcat(s, a, b);
    assert Run(s, a + b) == u && OwnSteps(a + b, w);
  }

  // ---- A worker that stops -----------------------------------------------------------

  /** Worker `w` has claimed the message and it is not on the bus. */
  ghost predicate Unsent(s: State, w: nat, i: nat, id: string)
  {
    Inv(s) && Holds(s, w, i, id) && Count(s.bus, id) == 0
  }

  lemma StrangerLeavesUnsent(s: State, step: Step, w: nat, i: nat, id: string)
    requires Unsent(s, w, i, id) && !TakenBy(step, w)
    ensures Unsent(After(s, step), w, i, id)
  {
    StepKeepsInv(s, step);
    if Enabled(s, step) && step.Publish? {
      var v := step.worker;
      var head := s.workers[v].batch[0];
      assert BatchOk(s, v) && Holds(s, v, 0, head);
      CountSnoc(s.bus, Delivery(head, v, Route(s.workers[v], s.messages[head])));
    }
  }

  lemma {:induction false} UnsentStays(s: State, steps: seq<Step>, w: nat, i: nat, id: string)
    requires Unsent(s, w, i, id)
    requires forall n :: 0 <= n < |steps| ==> !TakenBy(steps[n], w)
    ensures Unsent(Run(s, steps), w, i, id)
  {
    if steps != [] {
      UnsentStays(s, steps[..|steps| - 1], w, i, id);
      StrangerLeavesUnsent(Run(s, steps[..|steps| - 1]), steps[|steps| - 1], w, i, id);
    }
  }

  /** Delivery is not guaranteed: leases never expire, so once a worker stops, a message
      it had claimed and not yet sent is never put on the bus by anybody, and it is never
      pending again. */
  lemma StoppedWorkerStrandsMessage(s: State, steps: seq<Step>, more: seq<Step>, w: nat, i: nat, id: string)
    requires Initial(s) && Holds(Run(s, steps), w, i, id) && Count(Run(s, steps).bus, id) == 0
    requires forall n :: 0 <= n < |more| ==> !TakenBy(more[n], w)
    ensures var t := Run(Run(s, steps), more);
      Count(t.bus, id) == 0 && id in t.messages && t.messages[id].status != Pending
  {
    RunKeepsInv(s, steps);
    UnsentStays(Run(s, steps), more, w, i, id);
    assert BatchOk(Run(Run(s, steps), more), w);
  }
}
