/** The loop body of a worker thread (src/outbox_worker/thread.rs) on the event store and the
    in-memory bus. One poll is a run of the worker's own steps in `OutboxWorkers`, also when
    the store has logs that do not hydrate, so what is proved there about runs holds of it. */
module OutboxThread {
  import opened Basics
  import opened EventStore
  import opened Aggregates
  import opened OutboxMessages
  import opened OutboxStore
  import Queues
  import Workers = OutboxWorkers

  // ---- The bus as a list of deliveries -----------------------------------------------

  /** The ids delivered to one destination, in order. */
  function IdsSentTo(bus: seq<Workers.Delivery>, queue: Option<string>): seq<string>
  {
    if bus == [] then []
    else
      var last := bus[|bus| - 1];
      IdsSentTo(bus[..|bus| - 1], queue) + if last.queue == queue then [last.id] else []
  }

  function Ids(events: seq<Queues.Event>): seq<string>
  {
    seq(|events|, i requires 0 <= i < |events| => events[i].id)
  }

  /** The fan-out log and the named queues hold exactly the deliveries, each in its place. */
  ghost predicate BusShows(bus: seq<Workers.Delivery>, log: seq<Queues.Event>, queues: map<string, Queues.PointToPoint>)
  {
    && IdsSentTo(bus, None) == Ids(log)
    && forall name :: IdsSentTo(bus, Some(name)) == Ids(Queues.QueueOf(queues, name).messages)
  }

  lemma IdsSentToSnoc(bus: seq<Workers.Delivery>, d: Workers.Delivery, queue: Option<string>)
    ensures IdsSentTo(bus + [d], queue) == IdsSentTo(bus, queue) + if d.queue == queue then [d.id] else []
  {
    assert (bus + [d])[..|bus|] == bus;
  }

  lemma IdsSnoc(events: seq<Queues.Event>, e: Queues.Event)
    ensures Ids(events + [e]) == Ids(events) + [e.id]
  {
  }

  /** Sending or publishing an event is one more delivery. */
  lemma BusShowsOneMore(bus: seq<Workers.Delivery>, log: seq<Queues.Event>, queues: map<string, Queues.PointToPoint>, d: Workers.Delivery, e: Queues.Event)
    requires BusShows(bus, log, queues) && e.id == d.id
    ensures d.queue.None? ==> BusShows(bus + [d], log + [e], queues)
    ensures d.queue.Some? ==> BusShows(bus + [d], log, Queues.Sent(queues, d.queue.value, e))
  {
    IdsSentToSnoc(bus, d, None);
    if d.queue.None? {
      IdsSnoc(log, e);
      forall name ensures IdsSentTo(bus + [d], Some(name)) == IdsSentTo(bus, Some(name)) {
        IdsSentToSnoc(bus, d, Some(name));
      }
    } else {
      var queues' := Queues.Sent(queues, d.queue.value, e);
      forall name ensures IdsSentTo(bus + [d], Some(name)) == Ids(Queues.QueueOf(queues', name).messages) {
        IdsSentToSnoc(bus, d, Some(name));
        IdsSnoc(Queues.QueueOf(queues, d.queue.value).messages, e);
      }
    }
  }

  /** An event has what the stored message of its id has; one in a named queue is for there. */
  ghost predicate Genuine(messages: Messages, e: Queues.Event, queue: Option<string>)
  {
    e.id in messages &&
    var m := messages[e.id];
    e.eventType == m.eventType && e.payload == m.payload && e.metadata == m.metadata && (queue.Some? ==> m.destination == queue)
  }

  ghost predicate Carries(messages: Messages, log: seq<Queues.Event>, queues: map<string, Queues.PointToPoint>)
  {
    && (forall e :: e in log ==> Genuine(messages, e, None))
    && (forall name, e :: e in Queues.QueueOf(queues, name).messages ==> Genuine(messages, e, Some(name)))
  }

  /** Every message is still there with its content. */
  ghost predicate Keeps(messages: Messages, messages': Messages)
  {
    forall id :: id in messages ==> id in messages' && SameContent(messages[id], messages'[id])
  }

  /** No step of a worker, nor a creation or a failure by hand, changes what a message says. */
  lemma StepKeepsContent(s: Workers.State, step: Workers.Step)
    ensures Keeps(s.messages, Workers.After(s, step).messages)
  {
    if Workers.Enabled(s, step) {
      match step {
        case Poll(w, order, until) => Workers.PollEffect(s, w, order, until);
        case FailedPoll(w, order, until) => Workers.PollEffect(s, w, order, until);
        case _ =>
      }
    }
  }

  lemma StillCarries(messages: Messages, messages': Messages, log: seq<Queues.Event>, queues: map<string, Queues.PointToPoint>)
    requires Carries(messages, log, queues) && Keeps(messages, messages')
    ensures Carries(messages', log, queues)
  {
    forall e | e in log ensures Genuine(messages', e, None) {
      assert Genuine(messages, e, None);
    }
    forall name, e | e in Queues.QueueOf(queues, name).messages ensures Genuine(messages', e, Some(name)) {
      assert Genuine(messages, e, Some(name));
    }
  }

  lemma StepCarries(s: Workers.State, step: Workers.Step, log: seq<Queues.Event>, queues: map<string, Queues.PointToPoint>)
    requires Carries(s.messages, log, queues)
    ensures Carries(Workers.After(s, step).messages, log, queues)
  {
    StepKeepsContent(s, step);
    StillCarries(s.messages, Workers.After(s, step).messages, log, queues);
  }

  lemma CarriesOneMore(messages: Messages, log: seq<Queues.Event>, queues: map<string, Queues.PointToPoint>, e: Queues.Event, queue: Option<string>)
    requires Carries(messages, log, queues) && Genuine(messages, e, queue)
    ensures queue.None? ==> Carries(messages, log + [e], queues)
    ensures queue.Some? ==> Carries(messages, log, Queues.Sent(queues, queue.value, e))
  {
  }

  // ---- Runs of one worker ------------------------------------------------------------

  /** What holds of every run of the system therefore holds after a poll of a real thread:
      if the polled state was reached by any interleaving of workers, then also afterwards
      each id is on the bus, in the log and all queues together, at most once. */
  lemma PolledBusHasNoDuplicates(first: Workers.State, steps: seq<Workers.Step>, t: Workers.State, w: nat, id: string)
    requires Workers.Initial(first) && Workers.Reaches(Workers.Run(first, steps), t, w)
    ensures Workers.Count(t.bus, id) <= 1
    ensures id in t.messages && t.messages[id].status == Published ==> Workers.Count(t.bus, id) == 1
  {
    var more :| Workers.Run(Workers.Run(first, steps), more) == t && Workers.OwnSteps(more, w);
    Workers.RunConcat(first, steps, more);
    Workers.DeliveredAtMostOnce(first, steps + more, id);
  }

  /** What settling the first message of a batch changes. */
  lemma SettledState(s: Workers.State, w: nat, accepted: bool)
    requires w in s.workers && s.workers[w].batch != []
    requires s.workers[w].phase == if accepted then Workers.Sent else Workers.Rejected
    ensures var t, worker := Workers.After(s, Verdict(w, accepted)), s.workers[w];
      && t.messages == Workers.Settle(s.messages, worker.batch[0], if accepted then Complete else Release(Workers.PUBLISH_FAILED))
      && t.bus == s.bus && w in t.workers
      && t.workers[w].name == worker.name && t.workers[w].routed == worker.routed
      && t.workers[w].published == worker.published + (if accepted then 1 else 0)
      && t.workers[w].failed == worker.failed + (if accepted then 0 else 1)
  {
  }

  /** A claim of a worker that gets as far as `prefix` of `order` fails. */
  ghost predicate ClaimFails(s: Workers.State, order: seq<string>, prefix: seq<string>)
  {
    |prefix| < |order| && |PendingIn(s.messages, prefix)| < Workers.BATCH_MAX
  }

  /** The scan of the store is the worker's poll, or its failed poll. */
  lemma ScanIsPoll(store: Store, order: seq<string>, prefix: seq<string>, until: nat, s: Workers.State, w: nat)
    requires WellNamed(store) && s.messages == View(store) && Workers.Enabled(s, Workers.Poll(w, order, until))
    requires prefix == order[..FirstUnreadable(store, order)]
    ensures var outcome := Scan(store, order, [], s.workers[w].name, Workers.BATCH_MAX, until);
      var t, f := Workers.After(s, Workers.Poll(w, prefix, until)), Workers.After(s, Workers.FailedPoll(w, prefix, until));
      && (outcome.result.Err? <==> ClaimFails(s, order, prefix))
      && WellNamed(outcome.store) && t.messages == f.messages == View(outcome.store)
      && (outcome.result.Ok? ==> Names(outcome.result.value, t.workers[w].batch, t.messages))
  {
    var name := s.workers[w].name;
    ClaimRefines(store, order, [], [], name, Workers.BATCH_MAX, until);
    ScanKeepsNames(store, order, [], name, Workers.BATCH_MAX, until);
    ClaimNames(store, order, [], [], name, Workers.BATCH_MAX, until);
    ClaimFailsIff(store, order, name, Workers.BATCH_MAX, until);
  }

  /** A poll, failed or not, leaves the bus and the worker's name and counters alone. */
  lemma PollKeepsRest(s: Workers.State, w: nat, prefix: seq<string>, until: nat)
    requires Workers.Enabled(s, Workers.Poll(w, prefix, until))
    ensures var t, f := Workers.After(s, Workers.Poll(w, prefix, until)), Workers.After(s, Workers.FailedPoll(w, prefix, until));
      && t.bus == f.bus == s.bus && w in t.workers && t.workers[w].phase == Workers.Ready && f.workers == s.workers
      && t.workers[w] == s.workers[w].(batch := t.workers[w].batch, phase := Workers.Ready)
  {
  }

  /** `id` is the next message of worker `w`. */
  ghost predicate HeadIs(s: Workers.State, w: nat, id: string)
  {
    w in s.workers && s.workers[w].batch != [] && s.workers[w].batch[0] == id && s.workers[w].phase == Workers.Ready && id in s.messages
  }

  function Verdict(w: nat, accepted: bool): Workers.Step
  {
    if accepted then Workers.Confirm(w) else Workers.GiveBack(w)
  }

  /** One message put on the bus and completed, or refused and released. */
  ghost function Delivered(s: Workers.State, w: nat, accepted: bool): Workers.State
  {
    Workers.After(Workers.After(s, Workers.Publish(w, accepted)), Verdict(w, accepted))
  }

  /** Worker `w` has dealt with the first `i` of the messages it claimed as `ids`. */
  ghost predicate InBatch(start: Workers.State, s: Workers.State, w: nat, claimed: seq<Aggregate<MessageState>>, ids: seq<string>, i: nat)
  {
    && Workers.Reaches(start, s, w) && Names(claimed, ids, s.messages)
    && w in s.workers && i <= |ids| && s.workers[w].batch == ids[i..] && s.workers[w].phase == Workers.Ready
  }

  /** Delivering the head of a batch leaves the rest of it, and every message keeps its
      destination. */
  lemma DeliveredFacts(start: Workers.State, s: Workers.State, w: nat, accepted: bool, claimed: seq<Aggregate<MessageState>>, ids: seq<string>, i: nat)
    returns (t: Workers.State)
    requires InBatch(start, s, w, claimed, ids, i) && i < |ids|
    ensures t == Delivered(s, w, accepted)
    ensures HeadIs(s, w, claimed[i].entity.id)
    ensures SameContent(s.messages[claimed[i].entity.id], claimed[i].state)
    ensures InBatch(start, t, w, claimed, ids, i + 1)
  {
    t := Delivered(s, w, accepted);
    Workers.ReachesFurther(start, s, w, Workers.Publish(w, accepted));
    Workers.ReachesFurther(start, Workers.After(s, Workers.Publish(w, accepted)), w, Verdict(w, accepted));
  }

  // ---- The thread --------------------------------------------------------------------

  datatype WorkerStats = WorkerStats(polls: nat, published: nat, failed: nat)

  class WorkerThread {
    const name: string
    const routed: bool
    const repo: HashMapRepository
    const queue: Queues.InMemoryQueue
    var stats: WorkerStats

    constructor (name: string, routed: bool, repo: HashMapRepository, queue: Queues.InMemoryQueue)
      ensures this.name == name && this.routed == routed && this.repo == repo && this.queue == queue
      ensures stats == WorkerStats(0, 0, 0)
    {
      this.name, this.routed, this.repo, this.queue := name, routed, repo, queue;
      stats := WorkerStats(0, 0, 0);
    }

    /** The state `s` of the step system describes this thread as worker `w`, its store and
        its bus, whose events have the content of the stored messages. */
    ghost predicate Shows(s: Workers.State, w: nat)
      reads this, repo, queue.bus
    {
      && WellNamed(repo.eventStore) && s.messages == View(repo.eventStore)
      && BusShows(s.bus, queue.bus.log, queue.bus.queues)
      && Carries(s.messages, queue.bus.log, queue.bus.queues)
      && w in s.workers
      && s.workers[w].name == name && s.workers[w].routed == routed
      && s.workers[w].published == stats.published && s.workers[w].failed == stats.failed
    }

    /** Publish or send one claimed message; the answer of the publisher is an input, and a
        refused message is not on the bus. */
    method PublishOne(message: OutboxMessage, accepted: bool, ghost s: Workers.State, ghost w: nat)
      requires Shows(s, w) && Workers.Enabled(s, Workers.Publish(w, accepted))
      requires s.workers[w].batch[0] == message.entity.id && message.entity.id in s.messages
      requires SameContent(s.messages[message.entity.id], message.State())
      modifies queue.bus
      ensures Shows(Workers.After(s, Workers.Publish(w, accepted)), w)
      ensures var m, id := s.messages[message.entity.id], message.entity.id;
        if !accepted then queue.bus.log == old(queue.bus.log) && queue.bus.queues == old(queue.bus.queues)
        else
          var event := Queues.Event(id, m.eventType, m.payload, m.metadata);
          if routed && m.destination.Some? then
            queue.bus.log == old(queue.bus.log) && queue.bus.queues == Queues.Sent(old(queue.bus.queues), m.destination.value, event)
          else
            queue.bus.log == old(queue.bus.log) + [event] && queue.bus.queues == old(queue.bus.queues)
    {
      if accepted {
        var event := Queues.Event(message.entity.id, message.eventType, message.payload, message.metadata);
        ghost var delivery := Workers.Delivery(message.entity.id, w, Workers.Route(s.workers[w], s.messages[message.entity.id]));
        BusShowsOneMore(s.bus, queue.bus.log, queue.bus.queues, delivery, event);
        CarriesOneMore(s.messages, queue.bus.log, queue.bus.queues, event, delivery.queue);
        if routed && message.destination.Some? {
          queue.Send(message.destination.value, event);
        } else {
          queue.Publish(event);
        }
      }
    }

    /** Complete a message that is on the bus, release one that was refused. */
    method SettleOne(id: string, accepted: bool, ghost s: Workers.State, ghost w: nat) returns (ghost step: Workers.Step)
      requires Shows(s, w) && id in s.messages
      requires s.workers[w].batch != [] && s.workers[w].batch[0] == id
      requires s.workers[w].phase == if accepted then Workers.Sent else Workers.Rejected
      modifies repo, this`stats
      ensures step == Verdict(w, accepted)
      ensures stats.polls == old(stats).polls
      ensures stats.published == old(stats).published + if accepted then 1 else 0
      ensures stats.failed == old(stats).failed + if accepted then 0 else 1
      ensures Shows(Workers.After(s, step), w)
    {
      SettledState(s, w, accepted);
      StepCarries(s, Verdict(w, accepted), queue.bus.log, queue.bus.queues);
      if accepted {
        SettleRefines(repo.eventStore, id, Complete);
        var done := CompleteOutboxMessage(repo, id);
        if done.Ok? {
          stats := stats.(published := stats.published + 1);
        }
        step := Workers.Confirm(w);
      } else {
        SettleRefines(repo.eventStore, id, Release(Workers.PUBLISH_FAILED));
        var _ := ReleaseOutboxMessage(repo, id, Workers.PUBLISH_FAILED);
        stats := stats.(failed := stats.failed + 1);
        step := Workers.GiveBack(w);
      }
    }

    /** Claim up to a hundred messages, `prefix` being the part of the iteration order before
        the first log that does not hydrate. If the claim fails nothing is handed out. */
    method ClaimBatch(order: seq<string>, until: nat, ghost prefix: seq<string>, ghost s: Workers.State, ghost w: nat)
      returns (claim: Option<seq<OutboxMessage>>)
      requires Shows(s, w) && Workers.Enabled(s, Workers.Poll(w, order, until))
      requires prefix == order[..FirstUnreadable(repo.eventStore, order)]
      modifies repo, this`stats
      ensures claim.None? <==> ClaimFails(s, order, prefix)
      ensures claim.None? ==> Shows(Workers.After(s, Workers.FailedPoll(w, prefix, until)), w)
      ensures claim.Some? ==>
        var t := Workers.After(s, Workers.Poll(w, prefix, until));
        Shows(t, w) && Names(MessageValues(claim.value), t.workers[w].batch, t.messages)
      ensures stats == old(stats).(polls := old(stats).polls + 1)
    {
      stats := stats.(polls := stats.polls + 1);
      ScanIsPoll(repo.eventStore, order, prefix, until, s, w);
      PollKeepsRest(s, w, prefix, until);
      StepCarries(s, Workers.Poll(w, prefix, until), queue.bus.log, queue.bus.queues);
      var result := ClaimOutboxMessages(repo, order, name, Workers.BATCH_MAX, until);
      match result {
        case Ok(claimed) => claim := Some(claimed);
        case Err(_) => claim := None;
      }
    }

    /** One round of the loop, in a state of the system in which the worker has no batch:
        afterwards it has none again, store, bus and statistics are those of a state that
        the worker's own steps reach, and every message it was handed was dealt with. A
        claim that fails is passed over. */
    method PollOnce(order: seq<string>, until: nat, answers: nat -> bool, ghost s: Workers.State, ghost w: nat)
      returns (ghost t: Workers.State)
      requires Shows(s, w) && Workers.Enabled(s, Workers.Poll(w, order, until))
      modifies repo, this`stats, queue.bus
      ensures Shows(t, w) && Workers.Reaches(s, t, w) && t.workers[w].batch == []
      ensures stats.polls == old(stats).polls + 1
      ensures var prefix := order[..FirstUnreadable(old(repo.eventStore), order)];
        stats.published + stats.failed == old(stats).published + old(stats).failed
          + if ClaimFails(s, order, prefix) then 0 else |Workers.After(s, Workers.Poll(w, prefix, until)).workers[w].batch|
    {
      ghost var prefix := order[..FirstUnreadable(repo.eventStore, order)];
      Workers.ReachesItself(s, w);
      var claim := ClaimBatch(order, until, prefix, s, w);
      match claim {
        case Some(messages) =>
          Workers.ReachesFurther(s, s, w, Workers.Poll(w, prefix, until));
          t := DeliverAll(messages, answers, s, Workers.After(s, Workers.Poll(w, prefix, until)), w, MessageValues(messages));
        case None =>
          Workers.ReachesFurther(s, s, w, Workers.FailedPoll(w, prefix, until));
          t := Workers.After(s, Workers.FailedPoll(w, prefix, until));
      }
    }

    method DeliverAll(messages: seq<OutboxMessage>, answers: nat -> bool,
                      ghost start: Workers.State, ghost s: Workers.State, ghost w: nat, ghost claimed: seq<Aggregate<MessageState>>)
      returns (ghost t: Workers.State)
      requires |claimed| == |messages| && forall j :: 0 <= j < |messages| ==> messages[j].Value() == claimed[j]
      requires Shows(s, w) && InBatch(start, s, w, claimed, s.workers[w].batch, 0)
      modifies repo, this`stats, queue.bus
      ensures Shows(t, w) && InBatch(start, t, w, claimed, s.workers[w].batch, |messages|)
      ensures stats.polls == old(stats).polls
      ensures stats.published + stats.failed == old(stats).published + old(stats).failed + |messages|
    {
      t := s;
      ghost var ids := s.workers[w].batch;
      for i := 0 to |messages|
        invariant Shows(t, w) && InBatch(start, t, w, claimed, ids, i)
        invariant forall j :: 0 <= j < |messages| ==> messages[j].Value() == claimed[j]
        invariant stats.polls == old(stats).polls
        invariant stats.published + stats.failed == old(stats).published + old(stats).failed + i
      {
        t := DeliverNext(messages, i, answers(i), start, t, w, claimed, ids);
      }
    }

    method DeliverNext(messages: seq<OutboxMessage>, i: nat, accepted: bool,
                       ghost start: Workers.State, ghost s: Workers.State, ghost w: nat,
                       ghost claimed: seq<Aggregate<MessageState>>, ghost ids: seq<string>)
      returns (ghost t: Workers.State)
      requires i < |messages| == |claimed| && forall j :: 0 <= j < |messages| ==> messages[j].Value() == claimed[j]
      requires Shows(s, w) && InBatch(start, s, w, claimed, ids, i)
      modifies repo, this`stats, queue.bus
      ensures forall j :: 0 <= j < |messages| ==> messages[j].Value() == claimed[j]
      ensures Shows(t, w) && InBatch(start, t, w, claimed, ids, i + 1)
      ensures stats.polls == old(stats).polls
      ensures stats.published + stats.failed == old(stats).published + old(stats).failed + 1
    {
      t := DeliveredFacts(start, s, w, accepted, claimed, ids, i);
      DeliverBeside(messages, i, accepted, s, w, t, claimed);
    }

    /** Delivering does not touch the messages in hand. */
    method DeliverBeside(messages: seq<OutboxMessage>, i: nat, accepted: bool,
                         ghost s: Workers.State, ghost w: nat, ghost t: Workers.State, ghost claimed: seq<Aggregate<MessageState>>)
      requires i < |messages| == |claimed| && forall j :: 0 <= j < |messages| ==> messages[j].Value() == claimed[j]
      requires Shows(s, w) && HeadIs(s, w, claimed[i].entity.id)
      requires SameContent(s.messages[claimed[i].entity.id], claimed[i].state)
      requires t == Delivered(s, w, accepted)
      modifies repo, this`stats, queue.bus
      ensures forall j :: 0 <= j < |messages| ==> messages[j].Value() == claimed[j]
      ensures Shows(t, w)
      ensures stats.polls == old(stats).polls
      ensures stats.published == old(stats).published + if accepted then 1 else 0
      ensures stats.failed == old(stats).failed + if accepted then 0 else 1
    {
      DeliverOne(messages[i], accepted, s, w, t);
    }

    /** Publish one message and settle it. */
    method DeliverOne(message: OutboxMessage, accepted: bool, ghost s: Workers.State, ghost w: nat, ghost t: Workers.State)
      requires Shows(s, w) && HeadIs(s, w, message.entity.id)
      requires SameContent(s.messages[message.entity.id], message.State())
      requires t == Delivered(s, w, accepted)
      modifies repo, this`stats, queue.bus
      ensures Shows(t, w)
      ensures stats.polls == old(stats).polls
      ensures stats.published == old(stats).published + if accepted then 1 else 0
      ensures stats.failed == old(stats).failed + if accepted then 0 else 1
    {
      PublishOne(message, accepted, s, w);
      ghost var _ := SettleOne(message.entity.id, accepted, Workers.After(s, Workers.Publish(w, accepted)), w);
    }
  }
}
