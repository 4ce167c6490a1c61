/** The event-sourced outbox message (src/outbox/message.rs) as an aggregate type and as an
    object. `created_at` is wall-clock time and is left out; a lease end is a number. */
module OutboxMessages {
  import opened Basics
  import opened Events
  import opened Entities
  import opened Aggregates

  datatype Status = Pending | InFlight | Published | Failed

  datatype MessageState = MessageState(
    eventType: string,
    payload: seq<byte>,
    status: Status,
    attempts: nat,
    lastError: Option<string>,
    workerId: Option<string>,
    leasedUntil: Option<nat>,
    destination: Option<string>,
    metadata: map<string, string>)

  const DEFAULT := MessageState("", [], Pending, 0, None, None, None, None, map[])

  const ID_PREFIX := "outbox:"

  function NormalizeId(id: string): (normalized: string)
    ensures ID_PREFIX <= normalized
    ensures ID_PREFIX <= id <==> normalized == id
  {
    if ID_PREFIX <= id then id else ID_PREFIX + id
  }

  /** Two ids name the same message exactly when they differ by at most the prefix. */
  lemma NormalizeCollidesIff(a: string, b: string)
    ensures NormalizeId(a) == NormalizeId(b) <==>
      a == b || (a == ID_PREFIX + b && !(ID_PREFIX <= b)) || (b == ID_PREFIX + a && !(ID_PREFIX <= a))
  {
    if NormalizeId(a) == NormalizeId(b) && !(ID_PREFIX <= a) && !(ID_PREFIX <= b) {
      assert a == (ID_PREFIX + a)[|ID_PREFIX|..] == (ID_PREFIX + b)[|ID_PREFIX|..] == b;
    }
  }

  datatype Command =
    | Initialize(id: string, eventType: string, payload: seq<byte>, destination: Option<string>, metadata: map<string, string>)
    | Claim(workerId: string, untilSecs: nat)
    | Complete
    | Release(error: string)
    | Fail(error: string)

  predicate Guard(s: MessageState, c: Command)
  {
    match c
    case Initialize(_, _, _, _, _) => true
    case Claim(_, _) => s.status == Pending
    case Complete => s.status == InFlight
    case Release(_) => s.status == InFlight
    case Fail(_) => s.status != Published && s.status != Failed
  }

  function ErrorText(error: string): Option<string>
  {
    if error == "" then None else Some(error)
  }

  function Body(s: MessageState, c: Command): MessageState
  {
    match c
    case Initialize(_, eventType, payload, destination, metadata) =>
      s.(eventType := eventType, payload := payload, destination := destination, metadata := metadata, status := Pending)
    case Claim(workerId, untilSecs) =>
      s.(status := InFlight, attempts := s.attempts + 1, workerId := Some(workerId), leasedUntil := Some(untilSecs))
    case Complete => s.(status := Published, workerId := None, leasedUntil := None)
    case Release(error) => s.(status := Pending, lastError := ErrorText(error), workerId := None, leasedUntil := None)
    case Fail(error) => s.(status := Failed, lastError := ErrorText(error), workerId := None, leasedUntil := None)
  }

  function Applied(s: MessageState, c: Command): MessageState
  {
    if Guard(s, c) then Body(s, c) else s
  }

  // ---- Commands as recorded events ---------------------------------------------------

  function NameOf(c: Command): string
  {
    match c
    case Initialize(_, _, _, _, _) => "MessageCreated"
    case Claim(_, _) => "MessageClaimed"
    case Complete => "MessagePublished"
    case Release(_) => "MessageReleased"
    case Fail(_) => "MessageFailed"
  }

  function ArgsOf(c: Command): Payload
  {
    match c
    case Initialize(id, eventType, payload, destination, metadata) =>
      [Text(id), Text(eventType), Blob(payload), MaybeText(destination), Dictionary(metadata)]
    case Claim(workerId, untilSecs) => [Text(workerId), Number(untilSecs)]
    case Complete => []
    case Release(error) => [Text(error)]
    case Fail(error) => [Text(error)]
  }

  /** The replay arms: no arm, or a payload of another shape, is a replay error. */
  function Decode(name: string, args: Payload): Option<Command>
  {
    if name == "MessageCreated" then
      if |args| == 5 && args[0].Text? && args[1].Text? && args[2].Blob? && args[3].MaybeText? && args[4].Dictionary? then
        Some(Initialize(args[0].text, args[1].text, args[2].bytes, args[3].maybe, args[4].entries))
      else None
    else if name == "MessageClaimed" then
      if |args| == 2 && args[0].Text? && args[1].Number? then Some(Claim(args[0].text, args[1].number)) else None
    else if name == "MessagePublished" then Some(Complete)
    else if name == "MessageReleased" then
      if |args| == 1 && args[0].Text? then Some(Release(args[0].text)) else None
    else if name == "MessageFailed" then
      if |args| == 1 && args[0].Text? then Some(Fail(args[0].text)) else None
    else None
  }

  lemma DecodeEncode(c: Command)
    ensures Decode(NameOf(c), ArgsOf(c)) == Some(c)
  {
  }

  const OUTBOX: Spec<MessageState> := Spec(
    DEFAULT,
    (name, args) => Decode(name, args).Some?,
    (s, name, args) => var c := Decode(name, args); c.Some? && Guard(s, c.value),
    (s, name, args) => var c := Decode(name, args); if c.Some? then Body(s, c.value) else s,
    (name, args) => var c := Decode(name, args);
      if c.Some? && c.value.Initialize? then Some(NormalizeId(c.value.id)) else None,
    name => 1,
    [])

  /** A command on a message, which has no emitter. */
  function Commanded(a: Aggregate<MessageState>, c: Command): Aggregate<MessageState>
  {
    if !Guard(a.state, c) then a
    else
      var entity := Digested(a.entity, NameOf(c), 1, ArgsOf(c));
      var renamed := if c.Initialize? then entity.(id := NormalizeId(c.id)) else entity;
      Aggregate(renamed, Body(a.state, c), a.queue)
  }

  /** That is what the generated command method does. */
  lemma CommandedIsInvoked(a: Aggregate<MessageState>, c: Command)
    ensures Invoked(OUTBOX, a, NameOf(c), ArgsOf(c)).(queue := a.queue) == Commanded(a, c)
  {
    DecodeEncode(c);
  }

  function Encode(c: Command): Call
  {
    Call.Command(NameOf(c), ArgsOf(c))
  }

  /** The message after a sequence of live commands on a new one. */
  function Performed(cs: seq<Command>): Aggregate<MessageState>
  {
    PerformedAll(OUTBOX, Encode, cs)
  }

  function DecodedLog(events: seq<EventRecord>): seq<Command>
  {
    if events == [] then []
    else
      var last := events[|events| - 1];
      var c := Decode(last.name, last.payload);
      DecodedLog(events[..|events| - 1]) + if c.Some? then [c.value] else []
  }

  /** One live command: the event is recorded exactly when the guard holds. */
  lemma InvokedStep(a: Aggregate<MessageState>, c: Command)
    requires !a.entity.replaying
    ensures var b := Invoked(OUTBOX, a, NameOf(c), ArgsOf(c));
      && b.state == Applied(a.state, c)
      && DecodedLog(b.entity.events) == DecodedLog(a.entity.events) + (if Guard(a.state, c) then [c] else [])
      && !b.entity.replaying
  {
    DecodeEncode(c);
    var b := Invoked(OUTBOX, a, NameOf(c), ArgsOf(c));
    if Guard(a.state, c) {
      assert b.entity.events[..|a.entity.events|] == a.entity.events;
    }
  }

  lemma CommandedDecodes(a: Aggregate<MessageState>, c: Command)
    requires !a.entity.replaying
    ensures var b := Commanded(a, c);
      && DecodedLog(b.entity.events) == DecodedLog(a.entity.events) + (if Guard(a.state, c) then [c] else [])
      && !b.entity.replaying
  {
    InvokedStep(a, c);
    CommandedIsInvoked(a, c);
  }

  lemma PerformedStep(cs: seq<Command>, c: Command)
    ensures var a, b := Performed(cs), Performed(cs + [c]);
      && b.state == Applied(a.state, c)
      && DecodedLog(b.entity.events) == DecodedLog(a.entity.events) + (if Guard(a.state, c) then [c] else [])
      && !b.entity.replaying
  {
    NeverReplaying(OUTBOX, Encoded(Encode, cs));
    PerformedSnoc(OUTBOX, Encode, cs, c);
    InvokedStep(Performed(cs), c);
  }

  // ---- The life of a message ---------------------------------------------------------

  datatype Kind = MessageCreated | MessageClaimed | MessagePublished | MessageReleased | MessageFailed

  function KindOf(c: Command): Kind
  {
    match c
    case Initialize(_, _, _, _, _) => MessageCreated
    case Claim(_, _) => MessageClaimed
    case Complete => MessagePublished
    case Release(_) => MessageReleased
    case Fail(_) => MessageFailed
  }

  function Kinds(cs: seq<Command>): (kinds: seq<Kind>)
    ensures |kinds| == |cs|
  {
    seq(|cs|, i requires 0 <= i < |cs| => KindOf(cs[i]))
  }

  function Rounds(n: nat): seq<Kind>
  {
    if n == 0 then [MessageCreated] else Rounds(n - 1) + [MessageClaimed, MessageReleased]
  }

  /** How a message can end up after its last release. */
  datatype Ending = Waiting | Claimed | ClaimedPublished | FailedUnclaimed | ClaimedFailed

  function EndingKinds(e: Ending): seq<Kind>
  {
    match e
    case Waiting => []
    case Claimed => [MessageClaimed]
    case ClaimedPublished => [MessageClaimed, MessagePublished]
    case FailedUnclaimed => [MessageFailed]
    case ClaimedFailed => [MessageClaimed, MessageFailed]
  }

  function EndingStatus(e: Ending): Status
  {
    match e
    case Waiting => Pending
    case Claimed => InFlight
    case ClaimedPublished => Published
    case FailedUnclaimed => Failed
    case ClaimedFailed => Failed
  }

  function Lifecycle(rounds: nat, e: Ending): seq<Kind>
  {
    Rounds(rounds) + EndingKinds(e)
  }

  function ClaimCount(kinds: seq<Kind>): nat
  {
    if kinds == [] then 0
    else ClaimCount(kinds[..|kinds| - 1]) + if kinds[|kinds| - 1] == MessageClaimed then 1 else 0
  }

  function Attempts(rounds: nat, e: Ending): nat
  {
    if e.Waiting? || e.FailedUnclaimed? then rounds else rounds + 1
  }

  lemma {:induction false} LifecycleClaims(rounds: nat, e: Ending)
    ensures ClaimCount(Lifecycle(rounds, e)) == Attempts(rounds, e)
    decreases e != Claimed
  {
    RoundClaims(rounds);
    var whole := Lifecycle(rounds, e);
    match e {
      case Waiting => assert whole == Rounds(rounds);
      case Claimed => assert whole[..|whole| - 1] == Rounds(rounds);
      case FailedUnclaimed => assert whole[..|whole| - 1] == Rounds(rounds);
      case ClaimedPublished => assert whole[..|whole| - 1] == Lifecycle(rounds, Claimed); LifecycleClaims(rounds, Claimed);
      case ClaimedFailed => assert whole[..|whole| - 1] == Lifecycle(rounds, Claimed); LifecycleClaims(rounds, Claimed);
    }
  }

  lemma {:induction false} RoundClaims(rounds: nat)
    ensures ClaimCount(Rounds(rounds)) == rounds
  {
    if rounds > 0 {
      RoundClaims(rounds - 1);
      var whole := Rounds(rounds);
      assert whole[..|whole| - 1] == Rounds(rounds - 1) + [MessageClaimed];
      assert (Rounds(rounds - 1) + [MessageClaimed])[..|whole| - 2] == Rounds(rounds - 1);
    }
  }

  /** What is known about a message at a point of its life. */
  ghost predicate Describes(a: Aggregate<MessageState>, rounds: nat, e: Ending)
  {
    && Kinds(DecodedLog(a.entity.events)) == Lifecycle(rounds, e)
    && a.state.status == EndingStatus(e)
    && a.state.attempts == Attempts(rounds, e)
    && (a.state.workerId.Some? <==> a.state.status == InFlight)
    && (a.state.leasedUntil.Some? <==> a.state.status == InFlight)
  }

  function NextRounds(rounds: nat, e: Ending, c: Command): nat
  {
    if e == Claimed && c.Release? then rounds + 1 else rounds
  }

  function NextEnding(e: Ending, c: Command): Ending
  {
    match (e, c)
    case (Waiting, Claim(_, _)) => Claimed
    case (Waiting, Fail(_)) => FailedUnclaimed
    case (Claimed, Complete) => ClaimedPublished
    case (Claimed, Release(_)) => Waiting
    case (Claimed, Fail(_)) => ClaimedFailed
    case _ => e
  }

  lemma LifecycleStep(rounds: nat, e: Ending, s: MessageState, c: Command)
    requires !c.Initialize? && s.status == EndingStatus(e)
    ensures Lifecycle(NextRounds(rounds, e, c), NextEnding(e, c)) ==
      Lifecycle(rounds, e) + if Guard(s, c) then [KindOf(c)] else []
    ensures Applied(s, c).status == EndingStatus(NextEnding(e, c))
  {
    if e == Claimed && c.Release? {
      assert Rounds(rounds) + [MessageClaimed] + [MessageReleased] == Rounds(rounds) + [MessageClaimed, MessageReleased];
    } else if e == Claimed && (c.Complete? || c.Fail?) {
      assert Rounds(rounds) + [MessageClaimed] + [KindOf(c)] == Rounds(rounds) + [MessageClaimed, KindOf(c)];
    }
  }

  lemma DescribesNext(a: Aggregate<MessageState>, b: Aggregate<MessageState>, c: Command, rounds: nat, e: Ending)
    requires !c.Initialize? && Describes(a, rounds, e) && b.state == Applied(a.state, c)
    requires DecodedLog(b.entity.events) == DecodedLog(a.entity.events) + if Guard(a.state, c) then [c] else []
    ensures Describes(b, NextRounds(rounds, e, c), NextEnding(e, c))
  {
    LifecycleStep(rounds, e, a.state, c);
    var log := DecodedLog(a.entity.events);
    assert Kinds(log + [c]) == Kinds(log) + [KindOf(c)];
    assert Kinds(log + []) == Kinds(log) + [];
  }

  lemma DescribesStep(cs: seq<Command>, c: Command, rounds: nat, e: Ending)
    requires !c.Initialize? && Describes(Performed(cs), rounds, e)
    ensures Describes(Performed(cs + [c]), NextRounds(rounds, e, c), NextEnding(e, c))
  {
    PerformedStep(cs, c);
    DescribesNext(Performed(cs), Performed(cs + [c]), c, rounds, e);
  }

  lemma DescribesStart(create: Command)
    requires create.Initialize?
    ensures Describes(Performed([create]), 0, Waiting)
  {
    PerformedStep([], create);
    assert [] + [create] == [create];
    assert Performed([]) == New(OUTBOX);
    assert Kinds([create]) == [MessageCreated] == Lifecycle(0, Waiting);
  }

  /** Every reachable log is Created (Claimed Released)* and then one of the five endings;
      the state follows from it: the attempts are the rounds, and worker and lease are set
      exactly while the message is in flight. */
  lemma {:induction false} LogIsLifecycle(create: Command, cs: seq<Command>) returns (rounds: nat, e: Ending)
    requires create.Initialize? && forall i :: 0 <= i < |cs| ==> !cs[i].Initialize?
    ensures Describes(Performed([create] + cs), rounds, e)
  {
    if cs == [] {
      assert [create] + cs == [create];
      DescribesStart(create);
      rounds, e := 0, Waiting;
    } else {
      var front, c := cs[..|cs| - 1], cs[|cs| - 1];
      rounds, e := LogIsLifecycle(create, front);
      assert [create] + front + [c] == [create] + cs;
      DescribesStep([create] + front, c, rounds, e);
      rounds, e := NextRounds(rounds, e, c), NextEnding(e, c);
    }
  }

  lemma DescribedAttempts(a: Aggregate<MessageState>, rounds: nat, e: Ending)
    requires Describes(a, rounds, e)
    ensures a.state.attempts == ClaimCount(Kinds(DecodedLog(a.entity.events)))
  {
    LifecycleClaims(rounds, e);
  }

  /** `attempts` is the number of Claimed events in the log. */
  lemma AttemptsCountClaims(create: Command, cs: seq<Command>)
    requires create.Initialize? && forall i :: 0 <= i < |cs| ==> !cs[i].Initialize?
    ensures var a := Performed([create] + cs); a.state.attempts == ClaimCount(Kinds(DecodedLog(a.entity.events)))
  {
    var rounds, e := LogIsLifecycle(create, cs);
    DescribedAttempts(Performed([create] + cs), rounds, e);
  }

  /** The command that brings a message to the end of a given life, and where from. */
  function LastStep(rounds: nat, e: Ending): (step: (nat, Ending, Command))
    requires rounds > 0 || e != Waiting
    ensures !step.2.Initialize? && NextRounds(step.0, step.1, step.2) == rounds && NextEnding(step.1, step.2) == e
  {
    match e
    case Waiting => (rounds - 1, Claimed, Release(""))
    case Claimed => (rounds, Waiting, Claim("w", 0))
    case FailedUnclaimed => (rounds, Waiting, Fail(""))
    case ClaimedPublished => (rounds, Claimed, Complete)
    case ClaimedFailed => (rounds, Claimed, Fail(""))
  }

  function Rank(e: Ending): nat
  {
    if e == Waiting then 0 else if e == Claimed then 1 else 2
  }

  /** And every such log is reachable. */
  lemma {:induction false} EveryLifecycleOccurs(create: Command, rounds: nat, e: Ending) returns (cs: seq<Command>)
    requires create.Initialize?
    ensures forall i :: 0 <= i < |cs| ==> !cs[i].Initialize?
    ensures Describes(Performed([create] + cs), rounds, e)
    decreases rounds, Rank(e)
  {
    if rounds == 0 && e == Waiting {
      cs := [];
      assert [create] + cs == [create];
      DescribesStart(create);
    } else {
      var (r, before, c) := LastStep(rounds, e);
      var shorter := EveryLifecycleOccurs(create, r, before);
      DescribesStep([create] + shorter, c, r, before);
      cs := shorter + [c];
      assert [create] + shorter + [c] == [create] + cs;
    }
  }

  // ---- What the fields hold ----------------------------------------------------------

  /** The error of the last release or failure, empty ones being none. */
  function LastError(log: seq<Command>): Option<string>
  {
    if log == [] then None
    else
      match log[|log| - 1]
      case Release(error) => if |error| == 0 then None else Some(error)
      case Fail(error) => if |error| == 0 then None else Some(error)
      case _ => LastError(log[..|log| - 1])
  }

  /** A message keeps what it was created with; while in flight it names the worker and the
      lease of the claim that is last in its log, and otherwise neither; and it remembers the
      last error. */
  ghost predicate FollowsLog(s: MessageState, log: seq<Command>, create: Command)
    requires create.Initialize?
  {
    && s.eventType == create.eventType && s.payload == create.payload
    && s.destination == create.destination && s.metadata == create.metadata
    && s.lastError == LastError(log)
    && if s.status == InFlight then
         log != [] && log[|log| - 1] == Claim(s.workerId.GetOr(""), s.leasedUntil.GetOr(0)) && s.workerId.Some? && s.leasedUntil.Some?
       else s.workerId == None && s.leasedUntil == None
  }

  lemma StepFollowsLog(s: MessageState, log: seq<Command>, create: Command, c: Command)
    requires create.Initialize? && !c.Initialize? && FollowsLog(s, log, create)
    ensures FollowsLog(Applied(s, c), log + if Guard(s, c) then [c] else [], create)
  {
    if Guard(s, c) {
      assert (log + [c])[..|log|] == log;
    } else {
      assert log + [] == log;
    }
  }

  /** In every run after a creation the fields follow from the creation and the log. */
  lemma {:induction false} FieldsFollowLog(create: Command, cs: seq<Command>)
    requires create.Initialize? && forall i :: 0 <= i < |cs| ==> !cs[i].Initialize?
    ensures var a := Performed([create] + cs); FollowsLog(a.state, DecodedLog(a.entity.events), create)
  {
    if cs == [] {
      assert [create] + cs == [] + [create];
      PerformedStep([], create);
      assert Performed([]) == New(OUTBOX);
      assert [create][..0] == [];
    } else {
      var front, c := cs[..|cs| - 1], cs[|cs| - 1];
      FieldsFollowLog(create, front);
      assert [create] + cs == [create] + front + [c];
      PerformedStep([create] + front, c);
      var a := Performed([create] + front);
      StepFollowsLog(a.state, DecodedLog(a.entity.events), create, c);
    }
  }

  /** Replay has no arm for anything but the five recorded forms; a completion has no
      arguments, so its payload is not looked at. */
  lemma DecodeInverts(name: string, args: Payload)
    ensures var c := Decode(name, args);
      if c.Some? then NameOf(c.value) == name && (c.value.Complete? || ArgsOf(c.value) == args)
      else forall d :: !(NameOf(d) == name && (d.Complete? || ArgsOf(d) == args))
  {
    var c := Decode(name, args);
    if c.None? {
      forall d | NameOf(d) == name && !d.Complete? ensures ArgsOf(d) != args {
        DecodeEncode(d);
      }
    }
  }

  predicate Terminal(s: MessageState)
  {
    s.status == Published || s.status == Failed
  }

  lemma TerminalRefuses(a: Aggregate<MessageState>, c: Command)
    requires Terminal(a.state) && !c.Initialize?
    ensures Called(OUTBOX, a, Encode(c)) == a
  {
    DecodeEncode(c);
  }

  /** Published and Failed are never left: no later command changes the state or the log. */
  lemma TerminalForever(cs: seq<Command>, more: seq<Command>)
    requires Terminal(Performed(cs).state)
    requires forall i :: 0 <= i < |more| ==> !more[i].Initialize?
    ensures Performed(cs + more) == Performed(cs)
  {
    var a := Performed(cs);
    forall i | 0 <= i < |more| ensures Called(OUTBOX, a, Encode(more[i])) == a {
      TerminalRefuses(a, more[i]);
    }
    RefusedCommandsChangeNothing(OUTBOX, Encode, cs, more);
  }

  /** The stored log of any message hydrates back to the live message. */
  lemma MessageHydratesBack(cs: seq<Command>)
    ensures var a := Performed(cs);
      var stored := Loaded(a.entity.id, a.entity.events);
      Hydrated(OUTBOX, stored) == Ok(Aggregate(stored, a.state, []))
  {
    forall i | 0 <= i < |cs| ensures Knows(OUTBOX, Encode(cs[i])) {
      DecodeEncode(cs[i]);
    }
    EncodedIsWellTyped(OUTBOX, Encode, cs);
    RecordReplayRoundTrip(OUTBOX, Encoded(Encode, cs));
  }

  // ---- The message as an object ------------------------------------------------------

  class OutboxMessage {
    const entity: Entity
    var eventType: string
    var payload: seq<byte>
    var status: Status
    var attempts: nat
    var lastError: Option<string>
    var workerId: Option<string>
    var leasedUntil: Option<nat>
    var destination: Option<string>
    var metadata: map<string, string>

    function State(): MessageState
      reads this
    {
      MessageState(eventType, payload, status, attempts, lastError, workerId, leasedUntil, destination, metadata)
    }

    function Value(): Aggregate<MessageState>
      reads this, entity
    {
      Aggregate(entity.Value(), State(), [])
    }

    /** A default message around a given entity. */
    constructor (entity: Entity)
      ensures this.entity == entity && State() == DEFAULT
    {
      this.entity := entity;
      eventType, payload, status, attempts, lastError := "", [], Pending, 0, None;
      workerId, leasedUntil, destination, metadata := None, None, None, map[];
    }

    twostate predicate Did(c: Command)
      reads this, entity
    {
      Value() == Commanded(old(Value()), c)
    }

    method Initialize(id: string, eventType: string, payload: seq<byte>, destination: Option<string>, metadata: map<string, string>)
      modifies this, entity
      ensures Did(Command.Initialize(id, eventType, payload, destination, metadata))
    {
      entity.Digest("MessageCreated", [Text(id), Text(eventType), Blob(payload), MaybeText(destination), Dictionary(metadata)]);
      var normalized := NormalizeId(id);
      entity.SetId(normalized);
      this.eventType, this.payload := eventType, payload;
      this.destination, this.metadata := destination, metadata;
      status := Pending;
    }

    method Claim(worker: string, untilSecs: nat)
      modifies this, entity
      ensures Did(Command.Claim(worker, untilSecs))
    {
      if status == Pending {
        entity.Digest("MessageClaimed", [Text(worker), Number(untilSecs)]);
        status := InFlight;
        attempts := attempts + 1;
        workerId := Some(worker);
        leasedUntil := Some(untilSecs);
      }
    }

    method Complete()
      modifies this, entity
      ensures Did(Command.Complete)
    {
      if status == InFlight {
        entity.Digest("MessagePublished", []);
        status := Published;
        workerId, leasedUntil := None, None;
      }
    }

    method Release(error: string)
      modifies this, entity
      ensures Did(Command.Release(error))
    {
      if status == InFlight {
        entity.Digest("MessageReleased", [Text(error)]);
        status := Pending;
        lastError := if error == "" then None else Some(error);
        workerId, leasedUntil := None, None;
      }
    }

    method Fail(error: string)
      modifies this, entity
      ensures Did(Command.Fail(error))
    {
      if status != Published && status != Failed {
        entity.Digest("MessageFailed", [Text(error)]);
        status := Failed;
        lastError := if error == "" then None else Some(error);
        workerId, leasedUntil := None, None;
      }
    }
  }
}
