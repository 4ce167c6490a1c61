/** The in-memory bus (src/bus/in_memory_queue.rs): an append-only fan-out log that every
    subscriber reads from its own position, and named queues whose listeners share one
    position. A timeout is a call that finds nothing. */
module Queues {
  import opened Basics
  import opened Events

  datatype Event = Event(id: string, eventType: string, payload: seq<byte>, metadata: map<string, string>)

  datatype PointToPoint = PointToPoint(messages: seq<Event>, position: nat)

  const EMPTY_QUEUE := PointToPoint([], 0)

  /** The part of the bus that all handles share. */
  class SharedBus {
    var log: seq<Event>
    var queues: map<string, PointToPoint>

    constructor ()
      ensures log == [] && queues == map[]
    {
      log, queues := [], map[];
    }
  }

  function QueueOf(queues: map<string, PointToPoint>, name: string): PointToPoint
  {
    if name in queues then queues[name] else EMPTY_QUEUE
  }

  function Sent(queues: map<string, PointToPoint>, queue: string, event: Event): map<string, PointToPoint>
  {
    var q := QueueOf(queues, queue);
    queues[queue := q.(messages := q.messages + [event])]
  }

  /** What a listener gets and what it leaves. */
  function Listened(queues: map<string, PointToPoint>, queue: string): (Option<Event>, map<string, PointToPoint>)
  {
    var q := QueueOf(queues, queue);
    if q.position < |q.messages| then (Some(q.messages[q.position]), queues[queue := q.(position := q.position + 1)])
    else (None, queues)
  }

  class InMemoryQueue {
    const bus: SharedBus
    var position: nat

    constructor ()
      ensures fresh(bus) && bus.log == [] && bus.queues == map[] && position == 0
    {
      bus := new SharedBus();
      position := 0;
    }

    constructor Sharing(bus: SharedBus)
      ensures this.bus == bus && position == 0
    {
      this.bus, position := bus, 0;
    }

    /** A new subscriber sees the whole log from its beginning. */
    method NewSubscriber() returns (subscriber: InMemoryQueue)
      ensures fresh(subscriber) && subscriber.bus == bus && subscriber.position == 0
    {
      subscriber := new InMemoryQueue.Sharing(bus);
    }

    method Publish(event: Event)
      modifies bus`log
      ensures bus.log == old(bus.log) + [event]
    {
      bus.log := bus.log + [event];
    }

    method Poll() returns (event: Option<Event>)
      modifies this`position
      ensures if old(position) < |bus.log|
        then event == Some(bus.log[old(position)]) && position == old(position) + 1
        else event == None && position == old(position)
    {
      if position < |bus.log| {
        event := Some(bus.log[position]);
        position := position + 1;
      } else {
        event := None;
      }
    }

    method Send(queue: string, event: Event)
      modifies bus`queues
      ensures bus.queues == Sent(old(bus.queues), queue, event)
    {
      if queue !in bus.queues {
        bus.queues := bus.queues[queue := EMPTY_QUEUE];
      }
      var q := bus.queues[queue];
      bus.queues := bus.queues[queue := q.(messages := q.messages + [event])];
    }

    /** Listeners compete: the shared position moves with every message handed out. */
    method Listen(queue: string) returns (event: Option<Event>)
      modifies bus`queues
      ensures (event, bus.queues) == Listened(old(bus.queues), queue)
    {
      if queue in bus.queues {
        var q := bus.queues[queue];
        if q.position < |q.messages| {
          bus.queues := bus.queues[queue := q.(position := q.position + 1)];
          return Some(q.messages[q.position]);
        }
      }
      event := None;
    }
  }

  function Wanted(eventTypes: set<string>): Event -> bool
  {
    (e: Event) => e.eventType in eventTypes
  }

  /** A subscriber that only delivers events of the subscribed types. */
  class EventReceiver {
    const subscriber: InMemoryQueue
    const eventTypes: set<string>

    constructor (subscriber: InMemoryQueue, eventTypes: set<string>)
      ensures this.subscriber == subscriber && this.eventTypes == eventTypes
    {
      this.subscriber, this.eventTypes := subscriber, eventTypes;
    }

    /** The next matching event; the others before it are consumed and skipped. `patience`
        is the number of polls before the deadline. */
    method Recv(patience: nat) returns (event: Option<Event>)
      requires subscriber.position <= |subscriber.bus.log|
      modifies subscriber`position
      ensures var log, from, to := subscriber.bus.log, old(subscriber.position), subscriber.position;
        && from <= to <= |log|
        && Filter(Wanted(eventTypes), log[from..to]) == (if event.Some? then [event.value] else [])
        && (event.Some? ==> from < to && event.value == log[to - 1])
        && (event.None? ==> to == |log| || to - from == patience)
    {
      ghost var log, from := subscriber.bus.log, subscriber.position;
      for polls := 0 to patience
        invariant from <= subscriber.position <= |log| && subscriber.position - from == polls
        invariant Filter(Wanted(eventTypes), log[from..subscriber.position]) == []
      {
        ghost var at := subscriber.position;
        event := subscriber.Poll();
        if event.None? {
          return;
        }
        FilterNext(Wanted(eventTypes), log, from, at);
        if event.value.eventType in eventTypes {
          return;
        }
      }
      event := None;
    }
  }
}
