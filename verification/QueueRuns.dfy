/** Runs of publishers, senders, competing listeners and event receivers on one in-memory bus
    (src/bus/in_memory_queue.rs). A receiver's `recv` is a series of polls, which other
    steps may separate. */
module QueueRuns {
  import opened Basics
  import opened Queues

  /** A receiver: what it subscribes to, how far it has read, and its results so far. */
  datatype Receiver = Receiver(eventTypes: set<string>, position: nat, results: seq<Event>)

  /** A message handed to a listener of a named queue. */
  datatype Handed = Handed(queue: string, listener: nat, event: Event)

  datatype State = State(
    log: seq<Event>,
    queues: map<string, PointToPoint>,
    receivers: map<nat, Receiver>,
    handed: seq<Handed>)

  const EMPTY := State([], map[], map[], [])

  datatype Step =
    | Publish(event: Event)
    | Send(queue: string, event: Event)
    | Listen(queue: string, listener: nat)
    | Subscribe(receiver: nat, eventTypes: set<string>)
    | Poll(receiver: nat)

  function Polled(r: Receiver, log: seq<Event>): Receiver
  {
    if r.position < |log| then
      var event := log[r.position];
      r.(position := r.position + 1, results := if event.eventType in r.eventTypes then r.results + [event] else r.results)
    else r
  }

  function After(s: State, step: Step): State
  {
    match step
    case Publish(event) => s.(log := s.log + [event])
    case Send(queue, event) => s.(queues := Sent(s.queues, queue, event))
    case Listen(queue, listener) =>
      var (event, queues) := Listened(s.queues, queue);
      if event.Some? then s.(queues := queues, handed := s.handed + [Handed(queue, listener, event.value)]) else s
    case Subscribe(r, eventTypes) => s.(receivers := s.receivers[r := Receiver(eventTypes, 0, [])])
    case Poll(r) => if r in s.receivers then s.(receivers := s.receivers[r := Polled(s.receivers[r], s.log)]) else s
  }

  function Run(steps: seq<Step>): State
  {
    if steps == [] then EMPTY else After(Run(steps[..|steps| - 1]), steps[|steps| - 1])
  }

  // ---- What was put in and what came out ---------------------------------------------

  function SentTo(steps: seq<Step>, queue: string): seq<Event>
  {
    if steps == [] then []
    else
      var last := steps[|steps| - 1];
      SentTo(steps[..|steps| - 1], queue) + if last.Send? && last.queue == queue then [last.event] else []
  }

  function PublishedBy(steps: seq<Step>): seq<Event>
  {
    if steps == [] then []
    else
      var last := steps[|steps| - 1];
      PublishedBy(steps[..|steps| - 1]) + if last.Publish? then [last.event] else []
  }

  /** The events handed out from a queue, in delivery order, by whomever received them. */
  function HandedFrom(handed: seq<Handed>, queue: string): seq<Event>
  {
    if handed == [] then []
    else
      var last := handed[|handed| - 1];
      HandedFrom(handed[..|handed| - 1], queue) + if last.queue == queue then [last.event] else []
  }

  lemma HandedSnoc(handed: seq<Handed>, h: Handed, queue: string)
    ensures HandedFrom(handed + [h], queue) == HandedFrom(handed, queue) + if h.queue == queue then [h.event] else []
  {
    assert (handed + [h])[..|handed|] == handed;
  }

  /** The queue holds all that was sent to it, and the part before `position` went out. */
  ghost predicate QueueOk(s: State, sent: seq<Event>, queue: string)
  {
    var q := QueueOf(s.queues, queue);
    && q.messages == sent
    && q.position <= |sent|
    && HandedFrom(s.handed, queue) == sent[..q.position]
  }

  lemma QueueStep(s: State, step: Step, sent: seq<Event>, queue: string)
    requires QueueOk(s, sent, queue)
    ensures QueueOk(After(s, step), sent + if step.Send? && step.queue == queue then [step.event] else [], queue)
  {
    var q := QueueOf(s.queues, queue);
    match step {
      case Send(target, event) =>
        if target == queue { assert (sent + [event])[..q.position] == sent[..q.position]; }
      case Listen(target, listener) =>
        var (event, _) := Listened(s.queues, target);
        if event.Some? {
          HandedSnoc(s.handed, Handed(target, listener, event.value), queue);
          if target == queue { assert sent[..q.position + 1] == sent[..q.position] + [event.value]; }
        }
      case _ =>
    }
  }

  /** With any number of competing listeners, what a named queue has handed out is, in
      order, exactly the first `position` messages ever sent to it: each to one listener,
      none lost, none repeated, none overtaken. */
  lemma {:induction false} QueueDeliversInOrder(steps: seq<Step>, queue: string)
    ensures QueueOk(Run(steps), SentTo(steps, queue), queue)
  {
    if steps != [] {
      QueueDeliversInOrder(steps[..|steps| - 1], queue);
      QueueStep(Run(steps[..|steps| - 1]), steps[|steps| - 1], SentTo(steps[..|steps| - 1], queue), queue);
    }
  }

  ghost predicate ReceiverOk(s: State, r: nat)
  {
    r in s.receivers ==>
      var receiver := s.receivers[r];
      receiver.position <= |s.log| && receiver.results == Filter(Wanted(receiver.eventTypes), s.log[..receiver.position])
  }

  lemma ReceiverStep(s: State, step: Step, r: nat)
    requires ReceiverOk(s, r)
    ensures ReceiverOk(After(s, step), r)
  {
    if r in s.receivers && (step.Publish? || step == Poll(r)) {
      var receiver, t := s.receivers[r], After(s, step);
      assert t.log[..receiver.position] == s.log[..receiver.position];
      if step.Poll? && receiver.position < |s.log| {
        assert s.log[..receiver.position + 1][..receiver.position] == s.log[..receiver.position];
      }
    }
  }

  /** Every receiver sees the whole fan-out log from its beginning: its successive results
      are the events of its types, in order, among those it has read, and the log is what
      was published. */
  lemma {:induction false} ReceiverSeesMatchingEvents(steps: seq<Step>, r: nat)
    ensures ReceiverOk(Run(steps), r)
    ensures Run(steps).log == PublishedBy(steps)
  {
    if steps != [] {
      ReceiverSeesMatchingEvents(steps[..|steps| - 1], r);
      ReceiverStep(Run(steps[..|steps| - 1]), steps[|steps| - 1], r);
    }
  }

  /** A receiver after `n` polls of an unchanged log. */
  function PolledTimes(r: Receiver, log: seq<Event>, n: nat): Receiver
  {
    if n == 0 then r else Polled(PolledTimes(r, log, n - 1), log)
  }

  lemma {:induction false} PollsFilter(r: Receiver, log: seq<Event>, n: nat)
    requires r.position + n <= |log| && r.results == Filter(Wanted(r.eventTypes), log[..r.position])
    ensures PolledTimes(r, log, n) ==
      Receiver(r.eventTypes, r.position + n, Filter(Wanted(r.eventTypes), log[..r.position + n]))
  {
    if n > 0 {
      PollsFilter(r, log, n - 1);
      var at := r.position + n - 1;
      assert log[..at + 1][..at] == log[..at];
    }
  }

  /** A call of `EventReceiver.Recv` that moves from `from` to `to` is that many poll steps of
      the run: with the event it returns, if any, the results stay what they should be. */
  lemma RecvIsPolls(eventTypes: set<string>, log: seq<Event>, from: nat, to: nat, event: Option<Event>)
    requires from <= to <= |log|
    requires Filter(Wanted(eventTypes), log[from..to]) == if event.Some? then [event.value] else []
    ensures var before := Receiver(eventTypes, from, Filter(Wanted(eventTypes), log[..from]));
      PolledTimes(before, log, to - from) ==
        Receiver(eventTypes, to, before.results + if event.Some? then [event.value] else [])
  {
    PollsFilter(Receiver(eventTypes, from, Filter(Wanted(eventTypes), log[..from])), log, to - from);
    FilterSegment(Wanted(eventTypes), log, from, to);
  }
}
