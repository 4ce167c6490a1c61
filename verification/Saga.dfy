/** The order fulfillment saga (tests/sagas/order/saga.rs): two forward steps, then either
    completion, or compensation of the steps done and failure. The list of order items is
    opaque bytes. */
module Saga {
  import opened Basics
  import opened Events
  import opened Entities
  import opened Aggregates

  datatype SagaStatus = Started | InventoryReserved | PaymentProcessed | Completed | Compensating | Failed

  datatype SagaState = SagaState(
    orderId: string,
    customerId: string,
    items: seq<byte>,
    totalCents: nat,
    status: SagaStatus,
    inventoryReserved: bool,
    paymentProcessed: bool,
    failureReason: Option<string>)

  const DEFAULT := SagaState("", "", [], 0, Started, false, false, None)

  datatype Command =
    | Start(sagaId: string, orderId: string, customerId: string, items: seq<byte>, totalCents: nat)
    | ReserveInventory
    | SucceedPayment
    | Complete
    | FailStep(step: string, reason: string)
    | CompensateInventory
    | CompensatePayment
    | MarkFailed

  predicate IsComplete(s: SagaState)
  {
    s.status == Completed || s.status == Failed
  }

  predicate Guard(s: SagaState, c: Command)
  {
    match c
    case Start(_, _, _, _, _) => true
    case ReserveInventory => s.status == Started
    case SucceedPayment => s.status == InventoryReserved
    case Complete => s.status == PaymentProcessed
    case FailStep(_, _) => !IsComplete(s)
    case CompensateInventory => s.status == Compensating && s.inventoryReserved
    case CompensatePayment => s.status == Compensating && s.paymentProcessed
    case MarkFailed => s.status == Compensating && !s.inventoryReserved && !s.paymentProcessed
  }

  function Body(s: SagaState, c: Command): SagaState
  {
    match c
    case Start(_, orderId, customerId, items, totalCents) =>
      s.(orderId := orderId, customerId := customerId, items := items, totalCents := totalCents, status := Started)
    case ReserveInventory => s.(status := InventoryReserved, inventoryReserved := true)
    case SucceedPayment => s.(status := PaymentProcessed, paymentProcessed := true)
    case Complete => s.(status := Completed)
    case FailStep(step, reason) => s.(status := Compensating, failureReason := Some(step + ": " + reason))
    case CompensateInventory => s.(inventoryReserved := false)
    case CompensatePayment => s.(paymentProcessed := false)
    case MarkFailed => s.(status := Failed)
  }

  function Applied(s: SagaState, c: Command): SagaState
  {
    if Guard(s, c) then Body(s, c) else s
  }

  // ---- As an aggregate ---------------------------------------------------------------

  function NameOf(c: Command): string
  {
    match c
    case Start(_, _, _, _, _) => "SagaStarted"
    case ReserveInventory => "InventoryReservationSucceeded"
    case SucceedPayment => "PaymentSucceeded"
    case Complete => "SagaCompleted"
    case FailStep(_, _) => "StepFailed"
    case CompensateInventory => "InventoryCompensated"
    case CompensatePayment => "PaymentCompensated"
    case MarkFailed => "SagaFailed"
  }

  function ArgsOf(c: Command): Payload
  {
    match c
    case Start(sagaId, orderId, customerId, items, totalCents) =>
      [Text(sagaId), Text(orderId), Text(customerId), Blob(items), Number(totalCents)]
    case FailStep(step, reason) => [Text(step), Text(reason)]
    case _ => []
  }

  function Decode(name: string, args: Payload): Option<Command>
  {
    if name == "SagaStarted" then
      if |args| == 5 && args[0].Text? && args[1].Text? && args[2].Text? && args[3].Blob? && args[4].Number? then
        Some(Start(args[0].text, args[1].text, args[2].text, args[3].bytes, args[4].number))
      else None
    else if name == "InventoryReservationSucceeded" then Some(ReserveInventory)
    else if name == "PaymentSucceeded" then Some(SucceedPayment)
    else if name == "SagaCompleted" then Some(Complete)
    else if name == "StepFailed" then
      if |args| == 2 && args[0].Text? && args[1].Text? then Some(FailStep(args[0].text, args[1].text)) else None
    else if name == "InventoryCompensated" then Some(CompensateInventory)
    else if name == "PaymentCompensated" then Some(CompensatePayment)
    else if name == "SagaFailed" then Some(MarkFailed)
    else None
  }

  lemma DecodeEncode(c: Command)
    ensures Decode(NameOf(c), ArgsOf(c)) == Some(c)
  {
  }

  const SAGA: Spec<SagaState> := Spec(
    DEFAULT,
    (name, args) => Decode(name, args).Some?,
    (s, name, args) => var c := Decode(name, args); c.Some? && Guard(s, c.value),
    (s, name, args) => var c := Decode(name, args); if c.Some? then Body(s, c.value) else s,
    (name, args) => var c := Decode(name, args); if c.Some? && c.value.Start? then Some(c.value.sagaId) else None,
    name => 1,
    [])

  function Encode(c: Command): Call
  {
    Call.Command(NameOf(c), ArgsOf(c))
  }

  function Performed(cs: seq<Command>): Aggregate<SagaState>
  {
    PerformedAll(SAGA, Encode, cs)
  }

  /** Replay has no arm for anything but the recorded forms; the payload of an event without
      arguments is not looked at. */
  lemma DecodeInverts(name: string, args: Payload)
    ensures var c := Decode(name, args);
      if c.Some? then NameOf(c.value) == name && (ArgsOf(c.value) == args || ArgsOf(c.value) == [])
      else forall d :: !(NameOf(d) == name && ArgsOf(d) == args)
  {
    if Decode(name, args).None? {
      forall d | NameOf(d) == name ensures ArgsOf(d) != args {
        DecodeEncode(d);
      }
    }
  }

  // ---- What the fields hold ----------------------------------------------------------

  /** The last start in a log. */
  function LastStart(log: seq<EventRecord>): (start: Option<Command>)
    ensures start.Some? ==> start.value.Start?
  {
    if log == [] then None
    else
      var last := log[|log| - 1];
      var c := Decode(last.name, last.payload);
      if c.Some? && c.value.Start? then c else LastStart(log[..|log| - 1])
  }

  /** The last failed step in a log, as text. */
  function LastFailure(log: seq<EventRecord>): Option<string>
  {
    if log == [] then None
    else
      var last := log[|log| - 1];
      match Decode(last.name, last.payload)
      case Some(FailStep(step, reason)) => Some(step + ": " + reason)
      case _ => LastFailure(log[..|log| - 1])
  }

  ghost predicate FollowsLog(a: Aggregate<SagaState>)
  {
    && a.state.failureReason == LastFailure(a.entity.events)
    && match LastStart(a.entity.events)
       case Some(start) =>
         start == Start(a.entity.id, a.state.orderId, a.state.customerId, a.state.items, a.state.totalCents)
       case None => a.entity.id == a.state.orderId == a.state.customerId == "" && a.state.items == [] && a.state.totalCents == 0
  }

  lemma CallFollowsLog(a: Aggregate<SagaState>, c: Command)
    requires !a.entity.replaying && FollowsLog(a)
    ensures FollowsLog(Called(SAGA, a, Encode(c)))
  {
    DecodeEncode(c);
    var b := Called(SAGA, a, Encode(c));
    if Guard(a.state, c) {
      assert b.entity.events[..|a.entity.events|] == a.entity.events;
    }
  }

  /** In every run the saga has the id and the order's data of its last start and the reason
      of its last failed step; a later start does not clear the reason. */
  lemma {:induction false} FieldsFollowLog(cs: seq<Command>)
    ensures FollowsLog(Performed(cs))
  {
    if cs == [] {
      assert Performed([]) == New(SAGA);
    } else {
      var front, c := cs[..|cs| - 1], cs[|cs| - 1];
      FieldsFollowLog(front);
      assert cs == front + [c];
      PerformedSnoc(SAGA, Encode, front, c);
      NeverReplaying(SAGA, Encoded(Encode, front));
      CallFollowsLog(Performed(front), c);
    }
  }

  // ---- What the log says about the outcome -------------------------------------------

  /** How often the events that matter are in a log. */
  datatype Tally = Tally(reserved: nat, paid: nat, unreserved: nat, refunded: nat, completed: nat, failed: nat)

  const NOTHING := Tally(0, 0, 0, 0, 0, 0)

  function Counted(t: Tally, c: Command): Tally
  {
    match c
    case ReserveInventory => t.(reserved := t.reserved + 1)
    case SucceedPayment => t.(paid := t.paid + 1)
    case CompensateInventory => t.(unreserved := t.unreserved + 1)
    case CompensatePayment => t.(refunded := t.refunded + 1)
    case Complete => t.(completed := t.completed + 1)
    case MarkFailed => t.(failed := t.failed + 1)
    case _ => t
  }

  function TallyOf(events: seq<EventRecord>): Tally
  {
    if events == [] then NOTHING
    else
      var t, last := TallyOf(events[..|events| - 1]), events[|events| - 1];
      match Decode(last.name, last.payload) case Some(c) => Counted(t, c) case None => t
  }

  /** Forward steps are taken once and in order, and a flag is set while a step is done and
      not compensated. */
  predicate Coherent(s: SagaState, t: Tally)
  {
    && t.reserved <= 1 && t.paid <= t.reserved
    && t.reserved == t.unreserved + (if s.inventoryReserved then 1 else 0)
    && t.paid == t.refunded + (if s.paymentProcessed then 1 else 0)
    && t.completed == (if s.status == Completed then 1 else 0)
    && t.failed == (if s.status == Failed then 1 else 0)
    && match s.status
       case Started => t.reserved == 0
       case InventoryReserved => s.inventoryReserved && t.paid == 0
       case PaymentProcessed => s.inventoryReserved && s.paymentProcessed
       case Completed => s.inventoryReserved && s.paymentProcessed
       case Compensating => true
       case Failed => !s.inventoryReserved && !s.paymentProcessed
  }

  lemma StepKeepsCoherent(s: SagaState, t: Tally, c: Command)
    requires !c.Start? && Coherent(s, t)
    ensures Coherent(Applied(s, c), if Guard(s, c) then Counted(t, c) else t)
  {
  }

  /** A live command records its event exactly when its guard holds. */
  lemma InvokedCounts(a: Aggregate<SagaState>, c: Command)
    requires !a.entity.replaying
    ensures var b := Invoked(SAGA, a, NameOf(c), ArgsOf(c));
      && b.state == Applied(a.state, c)
      && TallyOf(b.entity.events) == if Guard(a.state, c) then Counted(TallyOf(a.entity.events), c) else TallyOf(a.entity.events)
  {
    DecodeEncode(c);
    var b := Invoked(SAGA, a, NameOf(c), ArgsOf(c));
    if Guard(a.state, c) {
      assert b.entity.events[..|a.entity.events|] == a.entity.events;
    }
  }

  ghost predicate CoherentLog(a: Aggregate<SagaState>)
  {
    Coherent(a.state, TallyOf(a.entity.events))
  }

  lemma CoherentStep(cs: seq<Command>, c: Command)
    requires CoherentLog(Performed(cs)) && !c.Start?
    ensures CoherentLog(Performed(cs + [c]))
  {
    var a := Performed(cs);
    NeverReplaying(SAGA, Encoded(Encode, cs));
    PerformedSnoc(SAGA, Encode, cs, c);
    InvokedCounts(a, c);
    StepKeepsCoherent(a.state, TallyOf(a.entity.events), c);
  }

  lemma CoherentStart(start: Command)
    requires start.Start?
    ensures CoherentLog(Performed([start]))
  {
    assert [] + [start] == [start];
    assert Performed([]) == New(SAGA);
    PerformedSnoc(SAGA, Encode, [], start);
    InvokedCounts(New(SAGA), start);
  }

  lemma {:induction false} RunsAreCoherent(start: Command, cs: seq<Command>)
    requires start.Start? && forall i :: 0 <= i < |cs| ==> !cs[i].Start?
    ensures CoherentLog(Performed([start] + cs))
  {
    if cs == [] {
      assert [start] + cs == [start];
      CoherentStart(start);
    } else {
      var front, c := cs[..|cs| - 1], cs[|cs| - 1];
      RunsAreCoherent(start, front);
      assert [start] + cs == [start] + front + [c];
      CoherentStep([start] + front, c);
    }
  }

  /** In every run with one start: a completed saga reserved and charged exactly once and
      compensated neither; a failed one compensated exactly the steps it had done. */
  lemma OutcomeMatchesLog(start: Command, cs: seq<Command>)
    requires start.Start? && forall i :: 0 <= i < |cs| ==> !cs[i].Start?
    ensures var a := Performed([start] + cs);
      var t := TallyOf(a.entity.events);
      && (a.state.status == Completed ==> t == Tally(1, 1, 0, 0, 1, 0))
      && (a.state.status == Failed ==> t.unreserved == t.reserved && t.refunded == t.paid && t.completed == 0)
      && (a.state.inventoryReserved <==> t.reserved == t.unreserved + 1)
      && (a.state.paymentProcessed <==> t.paid == t.refunded + 1)
  {
    RunsAreCoherent(start, cs);
  }

  /** The saga's stored log hydrates to the same state, so the above holds of it too. */
  lemma SagaHydratesBack(cs: seq<Command>)
    ensures var a := Performed(cs);
      var stored := Loaded(a.entity.id, a.entity.events);
      Hydrated(SAGA, stored) == Ok(Aggregate(stored, a.state, []))
  {
    forall i | 0 <= i < |cs| ensures Knows(SAGA, Encode(cs[i])) {
      DecodeEncode(cs[i]);
    }
    EncodedIsWellTyped(SAGA, Encode, cs);
    RecordReplayRoundTrip(SAGA, Encoded(Encode, cs));
  }

  lemma OverRefuses(a: Aggregate<SagaState>, c: Command)
    requires IsComplete(a.state) && !c.Start?
    ensures Called(SAGA, a, Encode(c)) == a
  {
    DecodeEncode(c);
  }

  /** Completed and Failed are never left, and nothing is recorded any more. */
  lemma OutcomeIsFinal(cs: seq<Command>, more: seq<Command>)
    requires IsComplete(Performed(cs).state)
    requires forall i :: 0 <= i < |more| ==> !more[i].Start?
    ensures Performed(cs + more) == Performed(cs)
  {
    var a := Performed(cs);
    forall i | 0 <= i < |more| ensures Called(SAGA, a, Encode(more[i])) == a {
      OverRefuses(a, more[i]);
    }
    RefusedCommandsChangeNothing(SAGA, Encode, cs, more);
  }

  /** A saga that is not over can always be failed: report the failure, compensate, and
      mark; commands that are not needed do nothing. */
  lemma CompensationReachesFailed(s: SagaState, step: string, reason: string)
    requires !IsComplete(s)
    ensures var t := Applied(Applied(Applied(Applied(s, FailStep(step, reason)), CompensateInventory), CompensatePayment), MarkFailed);
      t.status == Failed && !t.inventoryReserved && !t.paymentProcessed
  {
  }

  // ---- Starting again ----------------------------------------------------------------

  /** A completed or failed saga refuses every command but a start, which has no guard. */
  lemma OverRefusesIff(a: Aggregate<SagaState>, c: Command)
    requires IsComplete(a.state) && !a.entity.replaying
    ensures Called(SAGA, a, Encode(c)) == a <==> !c.Start?
  {
    DecodeEncode(c);
    if c.Start? {
      InvokedCounts(a, c);
      assert |Called(SAGA, a, Encode(c)).entity.events| == |a.entity.events| + 1;
    }
  }

  function Starts(cs: seq<Command>): nat
  {
    if cs == [] then 0 else Starts(cs[..|cs| - 1]) + if cs[|cs| - 1].Start? then 1 else 0
  }

  lemma StartsSnoc(cs: seq<Command>, c: Command)
    ensures Starts(cs + [c]) == Starts(cs) + if c.Start? then 1 else 0
  {
    assert (cs + [c])[..|cs|] == cs;
  }

  /** Each start pays for at most one payment, and not before the payment is made. */
  predicate WithinStarts(s: SagaState, t: Tally, starts: nat)
  {
    && t.reserved <= starts && t.paid <= starts
    && (s.status == Started ==> t.reserved < starts && t.paid < starts)
    && (s.status == InventoryReserved ==> t.paid < starts)
  }

  lemma StepStaysWithinStarts(s: SagaState, t: Tally, c: Command, starts: nat)
    requires WithinStarts(s, t, starts)
    ensures WithinStarts(Applied(s, c), if Guard(s, c) then Counted(t, c) else t, starts + if c.Start? then 1 else 0)
  {
  }

  lemma {:induction false} RunStaysWithinStarts(start: Command, cs: seq<Command>)
    requires start.Start?
    ensures var a := Performed([start] + cs); WithinStarts(a.state, TallyOf(a.entity.events), Starts([start] + cs))
  {
    if cs == [] {
      assert [start] + cs == [start] == [] + [start];
      PerformedSnoc(SAGA, Encode, [], start);
      assert Performed([]) == New(SAGA);
      InvokedCounts(New(SAGA), start);
      StartsSnoc([], start);
    } else {
      var front, c := cs[..|cs| - 1], cs[|cs| - 1];
      assert [start] + cs == [start] + front + [c];
      RunStaysWithinStarts(start, front);
      StartsSnoc([start] + front, c);
      PerformedCounts([start] + front, c);
      var a := Performed([start] + front);
      StepStaysWithinStarts(a.state, TallyOf(a.entity.events), c, Starts([start] + front));
    }
  }

  lemma PerformedCounts(cs: seq<Command>, c: Command)
    ensures var a, b := Performed(cs), Performed(cs + [c]);
      && b.state == Applied(a.state, c)
      && TallyOf(b.entity.events) == if Guard(a.state, c) then Counted(TallyOf(a.entity.events), c) else TallyOf(a.entity.events)
  {
    NeverReplaying(SAGA, Encoded(Encode, cs));
    PerformedSnoc(SAGA, Encode, cs, c);
    InvokedCounts(Performed(cs), c);
  }

  /** In every run that begins with a start, payments and reservations are never more than
      the starts. */
  lemma PaidAtMostOncePerStart(start: Command, cs: seq<Command>)
    requires start.Start?
    ensures var t := TallyOf(Performed([start] + cs).entity.events);
      t.paid <= Starts([start] + cs) && t.reserved <= Starts([start] + cs)
  {
    RunStaysWithinStarts(start, cs);
  }

  /** Whatever happened before, a start lets the saga reserve and charge once more. */
  lemma StartChargesAgain(cs: seq<Command>, start: Command)
    requires start.Start?
    ensures var before, b := TallyOf(Performed(cs).entity.events), Performed(cs + [start] + [ReserveInventory] + [SucceedPayment]);
      && TallyOf(b.entity.events) == before.(reserved := before.reserved + 1, paid := before.paid + 1)
      && b.state.status == PaymentProcessed
  {
    PerformedCounts(cs, start);
    PerformedCounts(cs + [start], ReserveInventory);
    PerformedCounts(cs + [start] + [ReserveInventory], SucceedPayment);
  }

  /** And the bound is reached, for any number of starts. */
  lemma {:induction false} ChargedOncePerStart(start: Command, n: nat) returns (cs: seq<Command>)
    requires start.Start?
    ensures Starts(cs) == n && TallyOf(Performed(cs).entity.events).paid == n
    ensures if n == 0 then cs == [] else cs != [] && cs[0] == start
  {
    if n == 0 {
      cs := [];
      assert Performed([]) == New(SAGA);
    } else {
      var shorter := ChargedOncePerStart(start, n - 1);
      cs := shorter + [start] + [ReserveInventory] + [SucceedPayment];
      StartChargesAgain(shorter, start);
      StartsSnoc(shorter, start);
      StartsSnoc(shorter + [start], ReserveInventory);
      StartsSnoc(shorter + [start] + [ReserveInventory], SucceedPayment);
    }
  }

  lemma CompletedCharges(start: Command)
    requires start.Start?
    ensures TallyOf(Performed([start] + [ReserveInventory] + [SucceedPayment] + [Complete]).entity.events) == Tally(1, 1, 0, 0, 1, 0)
  {
    assert [] + [start] == [start];
    assert TallyOf(Performed([]).entity.events) == NOTHING;
    StartChargesAgain([], start);
    PerformedCounts([start] + [ReserveInventory] + [SucceedPayment], Complete);
  }

  /** In particular, a saga that is started again after it completed charges twice. */
  lemma RestartChargesTwice(start: Command)
    requires start.Start?
    ensures var log := Performed([start, ReserveInventory, SucceedPayment, Complete, start, ReserveInventory, SucceedPayment]).entity.events;
      TallyOf(log).completed == 1 && TallyOf(log).paid == 2
  {
    CompletedCharges(start);
    StartChargesAgain([start] + [ReserveInventory] + [SucceedPayment] + [Complete], start);
    RestartRun(start);
  }

  lemma RestartRun(start: Command)
    ensures [start] + [ReserveInventory] + [SucceedPayment] + [Complete] + [start] + [ReserveInventory] + [SucceedPayment]
      == [start, ReserveInventory, SucceedPayment, Complete, start, ReserveInventory, SucceedPayment]
  {
  }

  // ---- The saga as an object ---------------------------------------------------------

  class OrderFulfillmentSaga {
    const entity: Entity
    var orderId: string
    var customerId: string
    var items: seq<byte>
    var totalCents: nat
    var status: SagaStatus
    var inventoryReserved: bool
    var paymentProcessed: bool
    var failureReason: Option<string>

    function Value(): Aggregate<SagaState>
      reads this, entity
    {
      Aggregate(entity.Value(),
                SagaState(orderId, customerId, items, totalCents, status, inventoryReserved, paymentProcessed, failureReason),
                [])
    }

    constructor ()
      ensures Value() == New(SAGA) && fresh(entity)
    {
      entity := new Entity();
      orderId, customerId, items, totalCents := "", "", [], 0;
      status, inventoryReserved, paymentProcessed, failureReason := Started, false, false, None;
    }

    /** The object did what the aggregate's command does, without an emitter. */
    twostate predicate Did(c: Command)
      reads this, entity
    {
      Value() == Invoked(SAGA, old(Value()), NameOf(c), ArgsOf(c)).(queue := [])
    }

    method Start(sagaId: string, orderId: string, customerId: string, items: seq<byte>, totalCents: nat)
      modifies this, entity
      ensures Did(Command.Start(sagaId, orderId, customerId, items, totalCents))
    {
      entity.Digest("SagaStarted", [Text(sagaId), Text(orderId), Text(customerId), Blob(items), Number(totalCents)]);
      entity.SetId(sagaId);
      this.orderId, this.customerId, this.items, this.totalCents := orderId, customerId, items, totalCents;
      status := Started;
    }

    method ReserveInventory()
      modifies this, entity
      ensures Did(Command.ReserveInventory)
    {
      if status == Started {
        entity.Digest("InventoryReservationSucceeded", []);
        status, inventoryReserved := InventoryReserved, true;
      }
    }

    method SucceedPayment()
      modifies this, entity
      ensures Did(Command.SucceedPayment)
    {
      if status == InventoryReserved {
        entity.Digest("PaymentSucceeded", []);
        status, paymentProcessed := PaymentProcessed, true;
      }
    }

    method Complete()
      modifies this, entity
      ensures Did(Command.Complete)
    {
      if status == PaymentProcessed {
        entity.Digest("SagaCompleted", []);
        status := Completed;
      }
    }

    method FailStep(step: string, reason: string)
      modifies this, entity
      ensures Did(Command.FailStep(step, reason))
    {
      if status != Completed && status != Failed {
        entity.Digest("StepFailed", [Text(step), Text(reason)]);
        status := Compensating;
        failureReason := Some(step + ": " + reason);
      }
    }

    method CompensateInventory()
      modifies this, entity
      ensures Did(Command.CompensateInventory)
    {
      if status == Compensating && inventoryReserved {
        entity.Digest("InventoryCompensated", []);
        inventoryReserved := false;
      }
    }

    method CompensatePayment()
      modifies this, entity
      ensures Did(Command.CompensatePayment)
    {
      if status == Compensating && paymentProcessed {
        entity.Digest("PaymentCompensated", []);
        paymentProcessed := false;
      }
    }

    method MarkFailed()
      modifies this, entity
      ensures Did(Command.MarkFailed)
    {
      if status == Compensating && !inventoryReserved && !paymentProcessed {
        entity.Digest("SagaFailed", []);
        status := Failed;
      }
    }
  }
}
