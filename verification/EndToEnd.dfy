/** The outbox workers and the listeners of the named queues on one bus
    (src/outbox_worker/thread.rs, src/bus/in_memory_queue.rs): what happens to a message from
    its creation to the listener it is handed to. Nobody else publishes or sends. */
module EndToEnd {
  import opened Basics
  import opened OutboxMessages
  import opened OutboxStore
  import opened OutboxThread
  import Q = QueueRuns
  import Queues
  import Workers = OutboxWorkers

  datatype State = State(workers: Workers.State, bus: Q.State)

  /** A step of a worker, or of whoever reads the bus. */
  datatype Step = Work(own: Workers.Step) | Read(reading: Q.Step)

  /** The step puts a message on the bus. */
  ghost predicate Sends(s: State, step: Workers.Step)
  {
    var bus := Workers.After(s.workers, step).bus;
    bus != s.workers.bus && bus != [] && bus[|bus| - 1].id in s.workers.messages
  }

  /** What a worker puts on the bus for a message. */
  function EventOf(id: string, m: MessageState): Queues.Event
  {
    Queues.Event(id, m.eventType, m.payload, m.metadata)
  }

  function Arrival(d: Workers.Delivery, m: MessageState): Q.Step
  {
    match d.queue
    case Some(name) => Q.Send(name, EventOf(d.id, m))
    case None => Q.Publish(EventOf(d.id, m))
  }

  ghost function After(s: State, step: Step): State
  {
    match step
    case Work(own) =>
      var workers := Workers.After(s.workers, own);
      State(workers,
        if Sends(s, own) then
          var d := workers.bus[|workers.bus| - 1];
          Q.After(s.bus, Arrival(d, s.workers.messages[d.id]))
        else s.bus)
    case Read(own) => if own.Publish? || own.Send? then s else s.(bus := Q.After(s.bus, own))
  }

  ghost function Run(s: State, steps: seq<Step>): State
  {
    if steps == [] then s else After(Run(s, steps[..|steps| - 1]), steps[|steps| - 1])
  }

  predicate Initial(s: State)
  {
    Workers.Initial(s.workers) && s.bus == Q.EMPTY
  }

  // ---- The invariant -----------------------------------------------------------------

  /** Each named queue has handed out a prefix of its messages. */
  ghost predicate HandsOutInOrder(bus: Q.State)
  {
    forall name :: Q.QueueOk(bus, Queues.QueueOf(bus.queues, name).messages, name)
  }

  ghost predicate Inv(s: State)
  {
    && Workers.Inv(s.workers)
    && BusShows(s.workers.bus, s.bus.log, s.bus.queues)
    && Carries(s.workers.messages, s.bus.log, s.bus.queues)
    && HandsOutInOrder(s.bus)
  }

  lemma InitialIsConsistent(s: State)
    requires Initial(s)
    ensures Inv(s)
  {
    Workers.RunKeepsInv(s.workers, []);
    assert Workers.Run(s.workers, []) == s.workers;
  }

  /** A worker's step leaves its bus as it is, or adds one delivery of a message at the end,
      to where the message is for if it is to a named queue. */
  lemma WorkGrowsBus(s: Workers.State, step: Workers.Step)
    ensures var t := Workers.After(s, step);
      t.bus == s.bus || exists d :: t.bus == s.bus + [d] && d.id in s.messages && (d.queue.Some? ==> s.messages[d.id].destination == d.queue)
  {
  }

  lemma QueueStepKeepsOrder(bus: Q.State, step: Q.Step)
    requires HandsOutInOrder(bus)
    ensures HandsOutInOrder(Q.After(bus, step))
  {
    forall name ensures Q.QueueOk(Q.After(bus, step), Queues.QueueOf(Q.After(bus, step).queues, name).messages, name) {
      Q.QueueStep(bus, step, Queues.QueueOf(bus.queues, name).messages, name);
    }
  }

  lemma ArrivalShows(bus: Q.State, deliveries: seq<Workers.Delivery>, d: Workers.Delivery, messages: Messages)
    requires BusShows(deliveries, bus.log, bus.queues) && Carries(messages, bus.log, bus.queues)
    requires d.id in messages && (d.queue.Some? ==> messages[d.id].destination == d.queue)
    ensures var after := Q.After(bus, Arrival(d, messages[d.id]));
      BusShows(deliveries + [d], after.log, after.queues) && Carries(messages, after.log, after.queues)
  {
    var event := EventOf(d.id, messages[d.id]);
    BusShowsOneMore(deliveries, bus.log, bus.queues, d, event);
    CarriesOneMore(messages, bus.log, bus.queues, event, d.queue);
  }

  lemma WorkKeepsInv(s: State, own: Workers.Step)
    requires Inv(s)
    ensures Inv(After(s, Work(own)))
  {
    Workers.StepKeepsInv(s.workers, own);
    WorkGrowsBus(s.workers, own);
    var t := After(s, Work(own));
    if Sends(s, own) {
      var d :| t.workers.bus == s.workers.bus + [d] && d.id in s.workers.messages
        && (d.queue.Some? ==> s.workers.messages[d.id].destination == d.queue);
      assert t.workers.bus[|t.workers.bus| - 1] == d;
      ArrivalShows(s.bus, s.workers.bus, d, s.workers.messages);
      QueueStepKeepsOrder(s.bus, Arrival(d, s.workers.messages[d.id]));
    }
    StepCarries(s.workers, own, t.bus.log, t.bus.queues);
  }

  /** Listening, subscribing and polling change neither the log nor a queue's messages. */
  lemma ReadKeepsMessages(bus: Q.State, step: Q.Step)
    requires !step.Publish? && !step.Send?
    ensures var after := Q.After(bus, step);
      after.log == bus.log && forall name :: Queues.QueueOf(after.queues, name).messages == Queues.QueueOf(bus.queues, name).messages
  {
  }

  lemma StepKeepsInv(s: State, step: Step)
    requires Inv(s)
    ensures Inv(After(s, step))
  {
    match step {
      case Work(own) => WorkKeepsInv(s, own);
      case Read(own) =>
        if !own.Publish? && !own.Send? {
          QueueStepKeepsOrder(s.bus, own);
          ReadKeepsMessages(s.bus, own);
        }
    }
  }

  lemma {:induction false} RunKeepsInv(s: State, steps: seq<Step>)
    requires Inv(s)
    ensures Inv(Run(s, steps))
  {
    if steps != [] {
      RunKeepsInv(s, steps[..|steps| - 1]);
      StepKeepsInv(Run(s, steps[..|steps| - 1]), steps[|steps| - 1]);
    }
  }

  // ---- Counting ----------------------------------------------------------------------

  function CountIds(ids: seq<string>, id: string): nat
  {
    if ids == [] then 0 else CountIds(ids[..|ids| - 1], id) + if ids[|ids| - 1] == id then 1 else 0
  }

  lemma {:induction false} CountPrefix(ids: seq<string>, n: nat, id: string)
    requires n <= |ids|
    ensures CountIds(ids[..n], id) <= CountIds(ids, id)
    decreases |ids|
  {
    if n < |ids| {
      assert ids[..|ids| - 1][..n] == ids[..n];
      CountPrefix(ids[..|ids| - 1], n, id);
    } else {
      assert ids[..n] == ids;
    }
  }

  /** How often listeners were handed a message with this id, from whatever queue. */
  function HandedCount(handed: seq<Q.Handed>, id: string): nat
  {
    if handed == [] then 0 else HandedCount(handed[..|handed| - 1], id) + if handed[|handed| - 1].event.id == id then 1 else 0
  }

  /** Deliveries to two destinations are different deliveries. */
  lemma {:induction false} SentToOneOf(bus: seq<Workers.Delivery>, x: Option<string>, y: Option<string>, id: string)
    requires x != y
    ensures CountIds(IdsSentTo(bus, x), id) + CountIds(IdsSentTo(bus, y), id) <= Workers.Count(bus, id)
  {
    if bus != [] {
      var front, d := bus[..|bus| - 1], bus[|bus| - 1];
      SentToOneOf(front, x, y, id);
      CountSnoc(IdsSentTo(front, x), d.id, id);
      CountSnoc(IdsSentTo(front, y), d.id, id);
    }
  }

  lemma CountSnoc(ids: seq<string>, last: string, id: string)
    ensures CountIds(ids + [last], id) == CountIds(ids, id) + if last == id then 1 else 0
    ensures CountIds(ids + [], id) == CountIds(ids, id)
  {
    assert (ids + [last])[..|ids|] == ids && ids + [] == ids;
  }

  /** All deliveries of the id went to `x`. */
  lemma {:induction false} AllSentTo(bus: seq<Workers.Delivery>, x: Option<string>, id: string)
    requires forall k :: 0 <= k < |bus| && bus[k].id == id ==> bus[k].queue == x
    ensures CountIds(IdsSentTo(bus, x), id) == Workers.Count(bus, id)
  {
    if bus != [] {
      var front, d := bus[..|bus| - 1], bus[|bus| - 1];
      AllSentTo(front, x, id);
      CountSnoc(IdsSentTo(front, x), d.id, id);
    }
  }

  /** The ids handed out from one queue. */
  function HandedIds(handed: seq<Q.Handed>, name: string): seq<string>
  {
    Ids(Q.HandedFrom(handed, name))
  }

  lemma HandedIdsSnoc(handed: seq<Q.Handed>, h: Q.Handed, name: string)
    ensures HandedIds(handed + [h], name) == HandedIds(handed, name) + if h.queue == name then [h.event.id] else []
  {
    Q.HandedSnoc(handed, h, name);
  }

  lemma HandedIdsOf(handed: seq<Q.Handed>, name: string)
    requires handed != []
    ensures var front, h := handed[..|handed| - 1], handed[|handed| - 1];
      HandedIds(handed, name) == HandedIds(front, name) + if h.queue == name then [h.event.id] else []
  {
    HandedIdsSnoc(handed[..|handed| - 1], handed[|handed| - 1], name);
    assert handed[..|handed| - 1] + [handed[|handed| - 1]] == handed;
  }

  /** If at most queue `name` has handed out the id, it has done all of it. */
  lemma {:induction false} HandedByOneQueue(handed: seq<Q.Handed>, name: string, id: string)
    requires forall other :: other != name ==> CountIds(HandedIds(handed, other), id) == 0
    ensures HandedCount(handed, id) == CountIds(HandedIds(handed, name), id)
  {
    if handed != [] {
      var front, h := handed[..|handed| - 1], handed[|handed| - 1];
      forall other ensures CountIds(HandedIds(handed, other), id) ==
        CountIds(HandedIds(front, other), id) + if h.queue == other && h.event.id == id then 1 else 0
      {
        HandedIdsOf(handed, other);
        CountSnoc(HandedIds(front, other), h.event.id, id);
      }
      assert h.event.id == id ==> h.queue == name by {
        if h.event.id == id { assert CountIds(HandedIds(handed, h.queue), id) > 0; }
      }
      HandedByOneQueue(front, name, id);
    }
  }

  /** What a queue has handed out is among what the workers sent to it. */
  lemma HandedWasSent(s: State, name: string, id: string)
    requires Inv(s)
    ensures CountIds(HandedIds(s.bus.handed, name), id) <= CountIds(IdsSentTo(s.workers.bus, Some(name)), id)
    ensures var q := Queues.QueueOf(s.bus.queues, name);
      q.position == |q.messages| ==> CountIds(HandedIds(s.bus.handed, name), id) == CountIds(IdsSentTo(s.workers.bus, Some(name)), id)
  {
    var q := Queues.QueueOf(s.bus.queues, name);
    assert Q.QueueOk(s.bus, q.messages, name);
    assert Ids(q.messages[..q.position]) == Ids(q.messages)[..q.position];
    CountPrefix(Ids(q.messages), q.position, id);
    if q.position == |q.messages| { assert q.messages[..q.position] == q.messages; }
  }

  // ---- Main results ------------------------------------------------------------------

  lemma HandedAtMostSent(s: State, id: string)
    requires Inv(s)
    ensures HandedCount(s.bus.handed, id) <= 1
  {
    assert Workers.DeliveriesOk(s.workers, id);
    if name :| CountIds(HandedIds(s.bus.handed, name), id) > 0 {
      HandedWasSent(s, name, id);
      forall other | other != name ensures CountIds(HandedIds(s.bus.handed, other), id) == 0 {
        HandedWasSent(s, other, id);
        SentToOneOf(s.workers.bus, Some(name), Some(other), id);
      }
      SentToOneOf(s.workers.bus, Some(name), None, id);
      HandedByOneQueue(s.bus.handed, name, id);
    } else {
      HandedByOneQueue(s.bus.handed, "", id);
    }
  }

  /** End to end, in every run of workers and listeners: an outbox message is handed to at
      most one listener, at most once. */
  lemma HandedAtMostOnce(s: State, steps: seq<Step>, id: string)
    requires Initial(s)
    ensures HandedCount(Run(s, steps).bus.handed, id) <= 1
  {
    InitialIsConsistent(s);
    RunKeepsInv(s, steps);
    HandedAtMostSent(Run(s, steps), id);
  }

  lemma {:induction false} HandedIsHandedFrom(handed: seq<Q.Handed>, k: nat)
    requires k < |handed|
    ensures handed[k].event in Q.HandedFrom(handed, handed[k].queue)
  {
    if k < |handed| - 1 {
      HandedIsHandedFrom(handed[..|handed| - 1], k);
    }
  }

  /** And what a listener is handed is a message in the store, for the queue the listener
      asked, with the type, payload and metadata that the stored message has. */
  lemma HandedAsStored(s: State, steps: seq<Step>, k: nat)
    requires Initial(s) && k < |Run(s, steps).bus.handed|
    ensures var t := Run(s, steps);
      var h := t.bus.handed[k];
      h.event.id in t.workers.messages &&
      var m := t.workers.messages[h.event.id];
      m.destination == Some(h.queue) && h.event == Queues.Event(h.event.id, m.eventType, m.payload, m.metadata)
  {
    InitialIsConsistent(s);
    RunKeepsInv(s, steps);
    var bus := Run(s, steps).bus;
    var h := bus.handed[k];
    HandedIsHandedFrom(bus.handed, k);
    var messages := Queues.QueueOf(bus.queues, h.queue).messages;
    assert Q.QueueOk(bus, messages, h.queue);
    assert h.event in messages;
    assert Genuine(Run(s, steps).workers.messages, h.event, Some(h.queue));
  }

  lemma {:induction false} RunRoutesAll(s: State, steps: seq<Step>)
    requires forall w :: w in s.workers.workers ==> s.workers.workers[w].routed
    ensures forall w :: w in Run(s, steps).workers.workers ==> Run(s, steps).workers.workers[w].routed
  {
    if steps != [] {
      RunRoutesAll(s, steps[..|steps| - 1]);
      var t, step := Run(s, steps[..|steps| - 1]), steps[|steps| - 1];
      if step.Work? {
        Workers.RoutedStays(t.workers, [step.own]);
        assert [step.own][..0] == [] && Workers.Run(t.workers, []) == t.workers;
      }
    }
  }

  /** And when all workers are routed ones, a published message with a destination has been
      handed to exactly one listener as soon as its queue is drained. */
  lemma HandedExactlyOnce(s: State, steps: seq<Step>, id: string, name: string)
    requires Initial(s) && forall w :: w in s.workers.workers ==> s.workers.workers[w].routed
    requires var t := Run(s, steps);
      && id in t.workers.messages && t.workers.messages[id].status == Published
      && t.workers.messages[id].destination == Some(name)
      && Queues.QueueOf(t.bus.queues, name).position == |Queues.QueueOf(t.bus.queues, name).messages|
    ensures HandedCount(Run(s, steps).bus.handed, id) == 1
  {
    InitialIsConsistent(s);
    RunKeepsInv(s, steps);
    RunRoutesAll(s, steps);
    var t := Run(s, steps);
    assert Workers.DeliveriesOk(t.workers, id);
    forall k | 0 <= k < |t.workers.bus| && t.workers.bus[k].id == id ensures t.workers.bus[k].queue == Some(name) {
      assert Workers.RoutedOk(t.workers, k);
    }
    AllSentTo(t.workers.bus, Some(name), id);
    HandedWasSent(t, name, id);
    forall other | other != name ensures CountIds(HandedIds(t.bus.handed, other), id) == 0 {
      HandedWasSent(t, other, id);
      SentToOneOf(t.workers.bus, Some(name), Some(other), id);
    }
    HandedByOneQueue(t.bus.handed, name, id);
  }
}
