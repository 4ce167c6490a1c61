/** Stock with reservations (tests/sagas/order/inventory.rs). The fields are 32-bit unsigned
    there; here they are integers, and the results show that they stay in range. */
module Inventory {
  import opened Basics
  import opened Events
  import opened Entities
  import opened Aggregates

  const U32_END := 0x1_0000_0000

  type u32 = x: int | 0 <= x < 0x1_0000_0000

  datatype Stock = Stock(sku: string, available: int, reserved: int, reservations: map<string, nat>)

  const EMPTY := Stock("", 0, 0, map[])

  datatype Command =
    | Initialize(sku: string, initialStock: u32)
    | Reserve(orderId: string, quantity: u32)
    | ReleaseReservation(orderId: string)
    | CommitReservation(orderId: string)

  predicate Guard(s: Stock, c: Command)
  {
    match c
    case Initialize(_, _) => true
    case Reserve(_, quantity) => s.available >= quantity
    case ReleaseReservation(order) => order in s.reservations
    case CommitReservation(order) => order in s.reservations
  }

  function Body(s: Stock, c: Command): Stock
  {
    match c
    case Initialize(sku, stock) => s.(sku := sku, available := stock)
    case Reserve(order, quantity) =>
      s.(available := s.available - quantity, reserved := s.reserved + quantity, reservations := s.reservations[order := quantity])
    case ReleaseReservation(order) =>
      if order in s.reservations then
        var quantity := s.reservations[order];
        s.(available := s.available + quantity, reserved := s.reserved - quantity, reservations := s.reservations - {order})
      else s
    case CommitReservation(order) =>
      if order in s.reservations then s.(reserved := s.reserved - s.reservations[order], reservations := s.reservations - {order})
      else s
  }

  function Applied(s: Stock, c: Command): Stock
  {
    if Guard(s, c) then Body(s, c) else s
  }

  function Run(s: Stock, cs: seq<Command>): Stock
  {
    if cs == [] then s else Applied(Run(s, cs[..|cs| - 1]), cs[|cs| - 1])
  }

  // ---- Conservation ------------------------------------------------------------------

  /** The quantity a command sells. */
  function SoldBy(s: Stock, c: Command): nat
  {
    if c.CommitReservation? && c.orderId in s.reservations then s.reservations[c.orderId] else 0
  }

  /** The quantity of an open reservation that a command replaces by another. */
  function OverwrittenBy(s: Stock, c: Command): nat
  {
    if c.Reserve? && Guard(s, c) && c.orderId in s.reservations then s.reservations[c.orderId] else 0
  }

  function Sold(s: Stock, cs: seq<Command>): nat
  {
    if cs == [] then 0
    else Sold(s, cs[..|cs| - 1]) + SoldBy(Run(s, cs[..|cs| - 1]), cs[|cs| - 1])
  }

  function Overwritten(s: Stock, cs: seq<Command>): nat
  {
    if cs == [] then 0
    else Overwritten(s, cs[..|cs| - 1]) + OverwrittenBy(Run(s, cs[..|cs| - 1]), cs[|cs| - 1])
  }

  /** Nothing is lost, and what is reserved is what the open reservations say, plus what
      was reserved for an order that reserved again. */
  ghost predicate Balanced(s: Stock, stock: int, sold: nat, overwritten: nat)
  {
    && s.available >= 0
    && s.available + s.reserved + sold == stock
    && s.reserved == Sum(s.reservations) + overwritten
  }

  lemma SumInsert(m: map<string, nat>, k: string, v: nat)
    ensures Sum(m[k := v]) == Sum(m) + v - if k in m then m[k] else 0
  {
    SumUpdate(m, k, v);
    if k in m { SumWithout(m, k); } else { assert m - {k} == m; }
  }

  lemma StepKeepsBalance(s: Stock, c: Command, stock: int, sold: nat, overwritten: nat)
    requires !c.Initialize? && Balanced(s, stock, sold, overwritten)
    ensures Balanced(Applied(s, c), stock, sold + SoldBy(s, c), overwritten + OverwrittenBy(s, c))
  {
    match c {
      case Reserve(order, quantity) => SumInsert(s.reservations, order, quantity);
      case ReleaseReservation(order) => if order in s.reservations { SumWithout(s.reservations, order); }
      case CommitReservation(order) => if order in s.reservations { SumWithout(s.reservations, order); }
    }
  }

  ghost predicate NoInitialize(cs: seq<Command>)
  {
    forall i :: 0 <= i < |cs| ==> !cs[i].Initialize?
  }

  function Opened(sku: string, stock: u32): Stock
  {
    Applied(EMPTY, Initialize(sku, stock))
  }

  /** From any balanced stock on, every run without an initialization keeps the balance. */
  lemma {:induction false} RunKeepsBalance(first: Stock, cs: seq<Command>, stock: int, overwritten: nat)
    requires NoInitialize(cs) && Balanced(first, stock, 0, overwritten)
    ensures Balanced(Run(first, cs), stock, Sold(first, cs), overwritten + Overwritten(first, cs))
  {
    if cs != [] {
      var front := cs[..|cs| - 1];
      RunKeepsBalance(first, front, stock, overwritten);
      StepKeepsBalance(Run(first, front), cs[|cs| - 1], stock, Sold(first, front), overwritten + Overwritten(first, front));
    }
  }

  /** Conservation: in every run that starts with one initialization, available, reserved
      and sold quantities add up to the initial stock, and the reserved quantity covers the
      open reservations, exactly so as long as no order overwrites a reservation. */
  lemma StockIsConserved(sku: string, stock: u32, cs: seq<Command>)
    requires NoInitialize(cs)
    ensures var s := Run(Opened(sku, stock), cs);
      && s.available + s.reserved + Sold(Opened(sku, stock), cs) == stock
      && s.reserved == Sum(s.reservations) + Overwritten(Opened(sku, stock), cs)
      && s.available >= 0
  {
    RunKeepsBalance(Opened(sku, stock), cs, stock, 0);
  }

  // ---- Staying in range --------------------------------------------------------------

  /** Every field is a 32-bit value. */
  predicate InRange(s: Stock)
  {
    0 <= s.available < U32_END && 0 <= s.reserved < U32_END
  }

  ghost predicate StaysInRange(s: Stock)
  {
    forall more :: NoInitialize(more) ==> InRange(Run(s, more))
  }

  /** No 32-bit operation under- or overflows, whatever is done to a stock that covers its
      reservations, if and only if its available and reserved quantities together fit in 32
      bits. */
  lemma StaysInRangeIff(s: Stock)
    requires InRange(s) && s.reserved >= Sum(s.reservations)
    ensures StaysInRange(s) <==> s.available + s.reserved < U32_END
  {
    if s.available + s.reserved < U32_END {
      forall more | NoInitialize(more) ensures InRange(Run(s, more)) {
        RunKeepsBalance(s, more, s.available + s.reserved, s.reserved - Sum(s.reservations));
      }
    } else {
      var more := [Reserve("", s.available)];
      assert more[..0] == [];
      assert Run(s, more) == Applied(Run(s, []), more[0]);
      assert !InRange(Run(s, more));
    }
  }

  /** So after one initialization nothing ever overflows: each field, and each reservation,
      is a 32-bit value after every command. */
  lemma NoOverflow(sku: string, stock: u32, cs: seq<Command>)
    requires NoInitialize(cs)
    ensures var s := Run(Opened(sku, stock), cs);
      && InRange(s)
      && forall order :: order in s.reservations ==> s.reservations[order] <= s.reserved
  {
    StockIsConserved(sku, stock, cs);
    var s := Run(Opened(sku, stock), cs);
    forall order | order in s.reservations ensures s.reservations[order] <= s.reserved {
      SumWithout(s.reservations, order);
    }
  }

  /** A second initialization is safe for good if and only if the new quantity and what is
      reserved at that moment fit in 32 bits together. */
  lemma SecondInitializeIsSafeIff(sku: string, stock: u32, cs: seq<Command>, again: u32)
    requires NoInitialize(cs)
    ensures var s := Run(Opened(sku, stock), cs);
      StaysInRange(Applied(s, Initialize(sku, again))) <==> again + s.reserved < U32_END
  {
    StockIsConserved(sku, stock, cs);
    StaysInRangeIff(Applied(Run(Opened(sku, stock), cs), Initialize(sku, again)));
  }

  /** `initialize` has no guard. A second one keeps the balance exactly when it names the
      quantity that is available already. */
  lemma SecondInitializeKeepsBalanceIff(sku: string, stock: u32, cs: seq<Command>, again: u32)
    requires NoInitialize(cs)
    ensures var s := Run(Opened(sku, stock), cs + [Initialize(sku, again)]);
      s.available + s.reserved + Sold(Opened(sku, stock), cs) == stock <==> again == Run(Opened(sku, stock), cs).available
  {
    StockIsConserved(sku, stock, cs);
    assert (cs + [Initialize(sku, again)])[..|cs|] == cs;
  }

  /** The smallest unsafe run: a release after a second one overflows. */
  lemma SecondInitializeCanOverflow(sku: string, order: string)
    ensures Run(Opened(sku, 1), [Reserve(order, 1), Initialize(sku, U32_END - 1), ReleaseReservation(order)]).available == U32_END
  {
    var a, b, c := Reserve(order, 1), Initialize(sku, U32_END - 1), ReleaseReservation(order);
    var s := Opened(sku, 1);
    assert [a, b, c][..2] == [a, b] && [a, b][..1] == [a] && [a][..0] == [];
    assert Run(s, [a]) == Applied(Run(s, []), a) && Run(s, [a, b]) == Applied(Run(s, [a]), b);
  }

  // ---- As an aggregate ---------------------------------------------------------------

  function NameOf(c: Command): string
  {
    match c
    case Initialize(_, _) => "InventoryInitialized"
    case Reserve(_, _) => "StockReserved"
    case ReleaseReservation(_) => "ReservationReleased"
    case CommitReservation(_) => "ReservationCommitted"
  }

  function ArgsOf(c: Command): Payload
  {
    match c
    case Initialize(sku, stock) => [Text(sku), Number(stock)]
    case Reserve(order, quantity) => [Text(order), Number(quantity)]
    case ReleaseReservation(order) => [Text(order)]
    case CommitReservation(order) => [Text(order)]
  }

  function Decode(name: string, args: Payload): Option<Command>
  {
    var withNumber := |args| == 2 && args[0].Text? && args[1].Number? && args[1].number < U32_END;
    var textOnly := |args| == 1 && args[0].Text?;
    if name == "InventoryInitialized" && withNumber then Some(Initialize(args[0].text, args[1].number))
    else if name == "StockReserved" && withNumber then Some(Reserve(args[0].text, args[1].number))
    else if name == "ReservationReleased" && textOnly then Some(ReleaseReservation(args[0].text))
    else if name == "ReservationCommitted" && textOnly then Some(CommitReservation(args[0].text))
    else None
  }

  lemma DecodeEncode(c: Command)
    ensures Decode(NameOf(c), ArgsOf(c)) == Some(c)
  {
  }

  const INVENTORY: Spec<Stock> := Spec(
    EMPTY,
    (name, args) => Decode(name, args).Some?,
    (s, name, args) => var c := Decode(name, args); c.Some? && Guard(s, c.value),
    (s, name, args) => var c := Decode(name, args); if c.Some? then Body(s, c.value) else s,
    (name, args) => var c := Decode(name, args); if c.Some? && c.value.Initialize? then Some(c.value.sku) else None,
    name => 1,
    [])

  function Encode(c: Command): Call
  {
    Call.Command(NameOf(c), ArgsOf(c))
  }

  function Performed(cs: seq<Command>): Aggregate<Stock>
  {
    PerformedAll(INVENTORY, Encode, cs)
  }

  /** Replay has an arm for exactly the recorded forms. */
  lemma DecodeInverts(name: string, args: Payload)
    ensures var c := Decode(name, args);
      if c.Some? then NameOf(c.value) == name && ArgsOf(c.value) == args
      else forall d :: !(NameOf(d) == name && ArgsOf(d) == args)
  {
    if Decode(name, args).None? {
      forall d | NameOf(d) == name ensures ArgsOf(d) != args {
        DecodeEncode(d);
      }
    }
  }

  /** The reservation an order has according to a log: the last one, if nothing after it
      released or committed it. */
  function OpenFor(log: seq<EventRecord>, order: string): Option<nat>
  {
    if log == [] then None
    else
      var last := log[|log| - 1];
      match Decode(last.name, last.payload)
      case Some(Reserve(o, quantity)) => if o == order then Some(quantity) else OpenFor(log[..|log| - 1], order)
      case Some(ReleaseReservation(o)) => if o == order then None else OpenFor(log[..|log| - 1], order)
      case Some(CommitReservation(o)) => if o == order then None else OpenFor(log[..|log| - 1], order)
      case _ => OpenFor(log[..|log| - 1], order)
  }

  /** The sku of the last initialization. */
  function SkuIn(log: seq<EventRecord>): string
  {
    if log == [] then ""
    else
      var last := log[|log| - 1];
      match Decode(last.name, last.payload)
      case Some(Initialize(sku, _)) => sku
      case _ => SkuIn(log[..|log| - 1])
  }

  ghost predicate FollowsLog(a: Aggregate<Stock>, order: string)
  {
    && a.entity.id == a.state.sku == SkuIn(a.entity.events)
    && OpenFor(a.entity.events, order) == if order in a.state.reservations then Some(a.state.reservations[order]) else None
  }

  /** A live command acts on the stock, and records its event exactly when its guard holds. */
  lemma CallRecords(a: Aggregate<Stock>, c: Command)
    requires !a.entity.replaying
    ensures var b, log := Called(INVENTORY, a, Encode(c)), a.entity.events;
      && b.state == Applied(a.state, c)
      && b.entity.id == (if c.Initialize? then c.sku else a.entity.id)
      && if Guard(a.state, c) then
           |b.entity.events| == |log| + 1 && b.entity.events[..|log|] == log
             && Decode(b.entity.events[|log|].name, b.entity.events[|log|].payload) == Some(c)
         else b.entity.events == log
  {
    DecodeEncode(c);
  }

  lemma CallFollowsLog(a: Aggregate<Stock>, b: Aggregate<Stock>, c: Command, order: string)
    requires !a.entity.replaying && FollowsLog(a, order) && b == Called(INVENTORY, a, Encode(c))
    ensures FollowsLog(b, order)
  {
    CallRecords(a, c);
  }

  /** In every run an order's open reservation is the last one in the log that nothing ended,
      and the item has the sku it was last initialized with, as its id too. */
  lemma {:induction false} StockFollowsLog(cs: seq<Command>, order: string)
    ensures FollowsLog(Performed(cs), order)
  {
    if cs == [] {
      assert Performed([]) == New(INVENTORY);
    } else {
      var front, c := cs[..|cs| - 1], cs[|cs| - 1];
      StockFollowsLog(front, order);
      assert cs == front + [c];
      PerformedSnoc(INVENTORY, Encode, front, c);
      NeverReplaying(INVENTORY, Encoded(Encode, front));
      CallFollowsLog(Performed(front), Performed(cs), c, order);
    }
  }

  lemma {:induction false} PerformedIsRun(cs: seq<Command>)
    ensures Performed(cs).state == Run(EMPTY, cs)
  {
    if cs != [] {
      var front, c := cs[..|cs| - 1], cs[|cs| - 1];
      PerformedIsRun(front);
      assert cs == front + [c];
      PerformedSnoc(INVENTORY, Encode, front, c);
      DecodeEncode(c);
    }
  }

  lemma {:induction false} RunCons(s: Stock, c: Command, cs: seq<Command>)
    ensures Run(s, [c] + cs) == Run(Applied(s, c), cs)
  {
    var whole := [c] + cs;
    if cs == [] {
      assert whole == [c] && [c][..0] == [];
    } else {
      assert whole[..|whole| - 1] == [c] + cs[..|cs| - 1];
      RunCons(s, c, cs[..|cs| - 1]);
    }
  }

  /** The stored log of an inventory hydrates to a balanced stock. */
  lemma HydratedStockIsConserved(sku: string, stock: u32, cs: seq<Command>)
    requires NoInitialize(cs)
    ensures var a := Performed([Initialize(sku, stock)] + cs);
      var hydrated := Hydrated(INVENTORY, Loaded(a.entity.id, a.entity.events));
      && hydrated.Ok?
      && var s := hydrated.value.state;
         s.available + s.reserved + Sold(Opened(sku, stock), cs) == stock && s.reserved >= Sum(s.reservations)
  {
    var whole := [Initialize(sku, stock)] + cs;
    PerformedIsRun(whole);
    forall i | 0 <= i < |whole| ensures Knows(INVENTORY, Encode(whole[i])) {
      DecodeEncode(whole[i]);
    }
    EncodedIsWellTyped(INVENTORY, Encode, whole);
    RunCons(EMPTY, Initialize(sku, stock), cs);
    RecordReplayRoundTrip(INVENTORY, Encoded(Encode, whole));
    StockIsConserved(sku, stock, cs);
  }

  // ---- The inventory as an object ----------------------------------------------------

  class InventoryObject {
    const entity: Entity
    var sku: string
    var available: int
    var reserved: int
    var reservations: map<string, nat>

    function Value(): Aggregate<Stock>
      reads this, entity
    {
      Aggregate(entity.Value(), Stock(sku, available, reserved, reservations), [])
    }

    constructor ()
      ensures Value() == New(INVENTORY) && fresh(entity)
    {
      entity := new Entity();
      sku, available, reserved, reservations := "", 0, 0, map[];
    }

    /** The object did what the aggregate's command does, without an emitter. */
    twostate predicate Did(c: Command)
      reads this, entity
    {
      Value() == Invoked(INVENTORY, old(Value()), NameOf(c), ArgsOf(c)).(queue := [])
    }

    method Initialize(sku: string, initialStock: u32)
      modifies this, entity
      ensures Did(Command.Initialize(sku, initialStock))
    {
      entity.Digest("InventoryInitialized", [Text(sku), Number(initialStock)]);
      entity.SetId(sku);
      this.sku := sku;
      available := initialStock;
    }

    method Reserve(orderId: string, quantity: u32)
      modifies this, entity
      ensures Did(Command.Reserve(orderId, quantity))
    {
      if available >= quantity {
        entity.Digest("StockReserved", [Text(orderId), Number(quantity)]);
        available := available - quantity;
        reserved := reserved + quantity;
        reservations := reservations[orderId := quantity];
      }
    }

    method ReleaseReservation(orderId: string)
      modifies this, entity
      ensures Did(Command.ReleaseReservation(orderId))
    {
      if orderId in reservations {
        entity.Digest("ReservationReleased", [Text(orderId)]);
        var quantity := reservations[orderId];
        reservations := reservations - {orderId};
        available := available + quantity;
        reserved := reserved - quantity;
      }
    }

    method CommitReservation(orderId: string)
      modifies this, entity
      ensures Did(Command.CommitReservation(orderId))
    {
      if orderId in reservations {
        entity.Digest("ReservationCommitted", [Text(orderId)]);
        var quantity := reservations[orderId];
        reservations := reservations - {orderId};
        reserved := reserved - quantity;
      }
    }
  }
}
