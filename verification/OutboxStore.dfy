/** The outbox operations of the event store (src/outbox_worker/repository_ext.rs): each one
    runs under the store's write lock, hydrates the message, and writes its log back. */
module OutboxStore {
  import opened Basics
  import opened Events
  import opened Entities
  import opened EventStore
  import opened Upcasting
  import opened Aggregates
  import opened OutboxMessages

  predicate IsOutboxId(id: string)
  {
    ID_PREFIX <= id
  }

  function MessageAt(store: Store, id: string): Result<Aggregate<MessageState>, RepositoryError>
    requires id in store
  {
    Hydrated(OUTBOX, Loaded(id, store[id]))
  }

  /** complete, release and fail: a message that is not there is not an error, and complete
      and release leave a message alone that is not in flight. */
  function Settled(store: Store, messageId: string, c: Command): (Result<(), RepositoryError>, Store)
  {
    var id := NormalizeId(messageId);
    if id !in store then (Ok(()), store)
    else
      match MessageAt(store, id)
      case Err(error) => (Err(error), store)
      case Ok(a) =>
        if c.Fail? || a.state.status == InFlight then (Ok(()), store[id := Commanded(a, c).entity.events])
        else (Ok(()), store)
  }

  /** What a claim hands out and leaves behind. On an error the claims made before it stay
      in the store although the caller does not get them. */
  datatype ClaimOutcome = ClaimOutcome(
    result: Result<seq<Aggregate<MessageState>>, RepositoryError>,
    store: Store)

  /** The scan over the store in iteration order; the length test comes after the push. */
  function Scan(store: Store, order: seq<string>, claimed: seq<Aggregate<MessageState>>, worker: string, max: nat, until: nat): ClaimOutcome
    decreases |order|
  {
    if order == [] then ClaimOutcome(Ok(claimed), store)
    else if !IsOutboxId(order[0]) || order[0] !in store then Scan(store, order[1..], claimed, worker, max, until)
    else
      match MessageAt(store, order[0])
      case Err(error) => ClaimOutcome(Err(error), store)
      case Ok(a) =>
        if a.state.status == Pending then
          var b := Commanded(a, Claim(worker, until));
          var store' := store[order[0] := b.entity.events];
          var claimed' := claimed + [b.(entity := MarkedCommitted(b.entity))];
          if |claimed'| >= max then ClaimOutcome(Ok(claimed'), store')
          else Scan(store', order[1..], claimed', worker, max, until)
        else if |claimed| >= max then ClaimOutcome(Ok(claimed), store)
        else Scan(store, order[1..], claimed, worker, max, until)
  }

  // ---- The messages behind the logs --------------------------------------------------

  /** The log under `id` hydrates to a message. */
  predicate Readable(store: Store, id: string)
  {
    id in store && IsOutboxId(id) && MessageAt(store, id).Ok?
  }

  /** Every readable message has the id it is stored under. */
  ghost predicate WellNamed(store: Store)
  {
    forall id :: Readable(store, id) ==> MessageAt(store, id).value.entity.id == id
  }

  type Messages = map<string, MessageState>

  /** The readable messages; logs that do not hydrate are not among them. */
  function View(store: Store): Messages
  {
    map id | id in store && Readable(store, id) :: MessageAt(store, id).value.state
  }

  /** Outside replay a command adds its event to the log exactly when its guard holds. */
  lemma CommandedLog(a: Aggregate<MessageState>, c: Command)
    requires !a.entity.replaying
    ensures var log, log' := a.entity.events, Commanded(a, c).entity.events;
      && log <= log'
      && |log'| == |log| + (if Guard(a.state, c) then 1 else 0)
      && (Numbered(log) ==> Numbered(log'))
      && (Guard(a.state, c) ==> Decode(log'[|log|].name, log'[|log|].payload) == Some(c) && log' == log + [log'[|log|]])
      && (!Guard(a.state, c) ==> log' == log)
  {
    DecodeEncode(c);
  }

  /** Replaying one more event of a command that is not the creation. */
  lemma HydrateOneMore(id: string, log: seq<EventRecord>, last: EventRecord, c: Command)
    requires Hydrated(OUTBOX, Loaded(id, log)).Ok? && !c.Initialize?
    requires Decode(last.name, last.payload) == Some(c)
    ensures var a, b := Hydrated(OUTBOX, Loaded(id, log)).value, Hydrated(OUTBOX, Loaded(id, log + [last]));
      b.Ok? && b.value.state == Applied(a.state, c) && b.value.entity.id == a.entity.id
  {
    HydrateIsFold(OUTBOX, Loaded(id, log));
    HydrateIsFold(OUTBOX, Loaded(id, log + [last]));
    NoUpcasters(log);
    NoUpcasters(log + [last]);
    assert (log + [last])[..|log|] == log;
  }

  lemma HydratedKeepsEvents(id: string, log: seq<EventRecord>)
    requires Hydrated(OUTBOX, Loaded(id, log)).Ok?
    ensures var e := Hydrated(OUTBOX, Loaded(id, log)).value.entity; e.events == log && !e.replaying
  {
    HydrateIsFold(OUTBOX, Loaded(id, log));
  }

  /** A command run on a hydrated message extends the log by the recorded event, if any,
      and the extended log hydrates to the commanded state. */
  lemma CommandedHydratesBack(id: string, log: seq<EventRecord>, c: Command)
    requires Hydrated(OUTBOX, Loaded(id, log)).Ok? && !c.Initialize?
    ensures var a := Hydrated(OUTBOX, Loaded(id, log)).value;
      var log' := Commanded(a, c).entity.events;
      && Hydrated(OUTBOX, Loaded(id, log')).Ok?
      && Hydrated(OUTBOX, Loaded(id, log')).value.state == Applied(a.state, c)
      && Hydrated(OUTBOX, Loaded(id, log')).value.entity.id == a.entity.id
      && log <= log'
      && |log'| == |log| + (if Guard(a.state, c) then 1 else 0)
      && (Numbered(log) ==> Numbered(log'))
  {
    var a := Hydrated(OUTBOX, Loaded(id, log)).value;
    HydratedKeepsEvents(id, log);
    CommandedLog(a, c);
    if Guard(a.state, c) {
      HydrateOneMore(id, log, Commanded(a, c).entity.events[|log|], c);
    }
  }

  /** Writing one log that hydrates. */
  lemma Overwrite(store: Store, id: string, log: seq<EventRecord>)
    requires IsOutboxId(id) && Hydrated(OUTBOX, Loaded(id, log)).Ok?
    ensures var store' := store[id := log];
      && (forall other :: Readable(store', other) <==> Readable(store, other) || other == id)
      && View(store') == View(store)[id := Hydrated(OUTBOX, Loaded(id, log)).value.state]
  {
    var store' := store[id := log];
    forall other | other in store && IsOutboxId(other) && other != id
      ensures MessageAt(store', other) == MessageAt(store, other)
    {
    }
  }

  lemma OverwriteKeepsNames(store: Store, id: string, log: seq<EventRecord>)
    requires Hydrated(OUTBOX, Loaded(id, log)).Ok? ==> Hydrated(OUTBOX, Loaded(id, log)).value.entity.id == id
    requires WellNamed(store)
    ensures WellNamed(store[id := log])
  {
    var store' := store[id := log];
    forall other | Readable(store', other) ensures MessageAt(store', other).value.entity.id == other {
      if other != id { assert Readable(store, other) && MessageAt(store', other) == MessageAt(store, other); }
    }
  }

  /** Writing a commanded message back changes that message as the command does, and no
      other message. */
  lemma WriteBack(store: Store, id: string, c: Command)
    requires Readable(store, id) && !c.Initialize?
    ensures var store' := store[id := Commanded(MessageAt(store, id).value, c).entity.events];
      && (forall other :: Readable(store', other) <==> Readable(store, other))
      && View(store') == View(store)[id := Applied(View(store)[id], c)]
      && (WellNamed(store) ==> WellNamed(store'))
  {
    CommandedHydratesBack(id, store[id], c);
    Overwrite(store, id, Commanded(MessageAt(store, id).value, c).entity.events);
    if WellNamed(store) {
      OverwriteKeepsNames(store, id, Commanded(MessageAt(store, id).value, c).entity.events);
    }
  }

  lemma SettledWithPrefix(store: Store, messageId: string, c: Command)
    ensures Settled(store, messageId, c) == Settled(store, NormalizeId(messageId), c)
  {
  }

  lemma SettleReadable(store: Store, id: string, c: Command)
    requires Readable(store, id) && (c.Complete? || c.Release? || c.Fail?)
    ensures var (result, after) := Settled(store, id, c);
      && result == Ok(()) && View(after) == View(store)[id := Applied(View(store)[id], c)]
      && (WellNamed(store) ==> WellNamed(after))
  {
    WriteBack(store, id, c);
    SettledIsWriteBack(store, id, c);
  }

  lemma SettleOther(store: Store, id: string, c: Command)
    requires IsOutboxId(id) && !Readable(store, id)
    ensures Settled(store, id, c) == (if id in store then Err(MessageAt(store, id).error) else Ok(()), store)
  {
  }

  /** complete, release and fail, with or without the prefix in the message id: a readable
      message is changed as the command does, whatever else is in the store; a log that does
      not hydrate is an error and stays; a message that is not there is neither. */
  lemma SettleRefines(store: Store, messageId: string, c: Command)
    requires c.Complete? || c.Release? || c.Fail?
    ensures var id, settled := NormalizeId(messageId), Settled(store, messageId, c);
      && (id !in store ==> settled == (Ok(()), store))
      && (id in store && !Readable(store, id) ==> settled == (Err(MessageAt(store, id).error), store))
      && (Readable(store, id) ==> settled.0 == Ok(()) && View(settled.1) == View(store)[id := Applied(View(store)[id], c)])
      && (WellNamed(store) ==> WellNamed(settled.1))
  {
    var id := NormalizeId(messageId);
    SettledWithPrefix(store, messageId, c);
    if Readable(store, id) {
      SettleReadable(store, id, c);
    } else {
      SettleOther(store, id, c);
    }
  }

  lemma SettledIsWriteBack(store: Store, id: string, c: Command)
    requires Readable(store, id) && (c.Complete? || c.Release? || c.Fail?)
    ensures Settled(store, id, c).0 == Ok(())
    ensures var settled, s := Settled(store, id, c).1, View(store)[id];
      settled == store[id := Commanded(MessageAt(store, id).value, c).entity.events] || (settled == store && Applied(s, c) == s)
  {
  }

  /** The claim on messages instead of logs: returns the messages and the claimed ids. */
  function ClaimView(messages: Messages, order: seq<string>, claimed: seq<string>, worker: string, max: nat, until: nat): (Messages, seq<string>)
    decreases |order|
  {
    if order == [] then (messages, claimed)
    else if order[0] !in messages then ClaimView(messages, order[1..], claimed, worker, max, until)
    else if messages[order[0]].status == Pending then
      var messages' := messages[order[0] := Applied(messages[order[0]], Claim(worker, until))];
      var claimed' := claimed + [order[0]];
      if |claimed'| >= max then (messages', claimed') else ClaimView(messages', order[1..], claimed', worker, max, until)
    else if |claimed| >= max then (messages, claimed)
    else ClaimView(messages, order[1..], claimed, worker, max, until)
  }

  /** What a message says and where it goes, which no command but the creation changes. */
  predicate SameContent(a: MessageState, b: MessageState)
  {
    a.eventType == b.eventType && a.payload == b.payload && a.destination == b.destination && a.metadata == b.metadata
  }

  /** The claimed messages carry these ids and the content of the stored messages. */
  ghost predicate Names(claimed: seq<Aggregate<MessageState>>, ids: seq<string>, messages: Messages)
  {
    |claimed| == |ids| && forall i :: 0 <= i < |ids| ==>
      claimed[i].entity.id == ids[i] && ids[i] in messages && SameContent(messages[ids[i]], claimed[i].state)
  }

  lemma NamesOneMore(claimed: seq<Aggregate<MessageState>>, ids: seq<string>, messages: Messages, id: string, c: Command, b: Aggregate<MessageState>)
    requires Names(claimed, ids, messages) && id in messages && !c.Initialize?
    requires b.entity.id == id && b.state == Applied(messages[id], c)
    ensures Names(claimed + [b], ids + [id], messages[id := Applied(messages[id], c)])
  {
  }

  /** How far a scan can get: the index of the first log it cannot read, or the length. */
  function FirstUnreadable(store: Store, order: seq<string>): (n: nat)
    ensures n <= |order|
  {
    if order == [] || (IsOutboxId(order[0]) && order[0] in store && !Readable(store, order[0])) then 0
    else 1 + FirstUnreadable(store, order[1..])
  }

  lemma {:induction false} UnreadableStay(store: Store, store': Store, order: seq<string>)
    requires store'.Keys == store.Keys && forall id :: Readable(store', id) <==> Readable(store, id)
    ensures FirstUnreadable(store', order) == FirstUnreadable(store, order)
  {
    if order != [] {
      UnreadableStay(store, store', order[1..]);
    }
  }

  /** One round of a scan that has not reached the unreadable log. */
  lemma ScanGoesOn(store: Store, order: seq<string>)
    requires order != [] && FirstUnreadable(store, order) > 0
    ensures var n := FirstUnreadable(store, order);
      n == 1 + FirstUnreadable(store, order[1..]) && order[..n][0] == order[0] && order[..n][1..] == order[1..][..n - 1]
  {
  }

  /** One round of a scan that claims. */
  lemma ClaimRound(store: Store, order: seq<string>, claimed: seq<Aggregate<MessageState>>, worker: string, max: nat, until: nat)
    returns (store': Store, b: Aggregate<MessageState>)
    requires order != [] && order[0] in View(store) && View(store)[order[0]].status == Pending
    ensures Scan(store, order, claimed, worker, max, until) ==
      if |claimed| + 1 >= max then ClaimOutcome(Ok(claimed + [b]), store')
      else Scan(store', order[1..], claimed + [b], worker, max, until)
    ensures View(store') == View(store)[order[0] := Applied(View(store)[order[0]], Claim(worker, until))]
    ensures b.state == Applied(View(store)[order[0]], Claim(worker, until))
    ensures FirstUnreadable(store', order[1..]) == FirstUnreadable(store, order[1..])
    ensures WellNamed(store) ==> WellNamed(store') && b.entity.id == order[0]
  {
    var id := order[0];
    var a := Commanded(MessageAt(store, id).value, Claim(worker, until));
    store', b := store[id := a.entity.events], a.(entity := MarkedCommitted(a.entity));
    WriteBack(store, id, Claim(worker, until));
    UnreadableStay(store, store', order[1..]);
  }

  /** A claim on any store does to the messages what `ClaimView` says, up to the first log
      it cannot read. */
  lemma {:induction false} ClaimRefines(store: Store, order: seq<string>, claimed: seq<Aggregate<MessageState>>, ids: seq<string>, worker: string, max: nat, until: nat)
    requires |claimed| == |ids|
    ensures var outcome := Scan(store, order, claimed, worker, max, until);
      var view := ClaimView(View(store), order[..FirstUnreadable(store, order)], ids, worker, max, until);
      View(outcome.store) == view.0 && (outcome.result.Ok? ==> |outcome.result.value| == |view.1|)
    decreases |order|
  {
    if order == [] || FirstUnreadable(store, order) == 0 {
      return;
    }
    var id, rest := order[0], order[1..];
    ScanGoesOn(store, order);
    if id !in View(store) {
      ClaimRefines(store, rest, claimed, ids, worker, max, until);
    } else if View(store)[id].status == Pending {
      var store', b := ClaimRound(store, order, claimed, worker, max, until);
      if |ids| + 1 < max {
        ClaimRefines(store', rest, claimed + [b], ids + [id], worker, max, until);
      }
    } else if |ids| < max {
      ClaimRefines(store, rest, claimed, ids, worker, max, until);
    }
  }

  lemma {:induction false} ScanKeepsNames(store: Store, order: seq<string>, claimed: seq<Aggregate<MessageState>>, worker: string, max: nat, until: nat)
    requires WellNamed(store)
    ensures WellNamed(Scan(store, order, claimed, worker, max, until).store)
    decreases |order|
  {
    if order == [] || FirstUnreadable(store, order) == 0 {
      return;
    }
    var id, rest := order[0], order[1..];
    if id !in View(store) {
      ScanKeepsNames(store, rest, claimed, worker, max, until);
    } else if View(store)[id].status == Pending {
      var store', b := ClaimRound(store, order, claimed, worker, max, until);
      if |claimed| + 1 < max {
        ScanKeepsNames(store', rest, claimed + [b], worker, max, until);
      }
    } else if |claimed| < max {
      ScanKeepsNames(store, rest, claimed, worker, max, until);
    }
  }

  /** It fails exactly when it gets to that log while it still wants more. */
  lemma {:induction false} ClaimBlocksIff(store: Store, order: seq<string>, claimed: seq<Aggregate<MessageState>>, ids: seq<string>, worker: string, max: nat, until: nat)
    requires |claimed| == |ids| < max
    ensures var n := FirstUnreadable(store, order);
      Scan(store, order, claimed, worker, max, until).result.Err? <==>
        n < |order| && |ClaimView(View(store), order[..n], ids, worker, max, until).1| < max
    decreases |order|
  {
    if order == [] || FirstUnreadable(store, order) == 0 {
      return;
    }
    var id, rest := order[0], order[1..];
    ScanGoesOn(store, order);
    if id in View(store) && View(store)[id].status == Pending {
      var store', b := ClaimRound(store, order, claimed, worker, max, until);
      if |ids| + 1 < max {
        ClaimBlocksIff(store', rest, claimed + [b], ids + [id], worker, max, until);
      }
    } else {
      ClaimBlocksIff(store, rest, claimed, ids, worker, max, until);
    }
  }

  /** With max = 0 it fails only before it has looked at a message, and changes nothing. */
  lemma {:induction false} EmptyClaimFailsUnchanged(store: Store, order: seq<string>, worker: string, until: nat)
    requires Scan(store, order, [], worker, 0, until).result.Err?
    ensures Scan(store, order, [], worker, 0, until).store == store
    decreases |order|
  {
    if order != [] && order[0] !in View(store) && FirstUnreadable(store, order) > 0 {
      EmptyClaimFailsUnchanged(store, order[1..], worker, until);
    }
  }

  lemma {:induction false} ClaimNames(store: Store, order: seq<string>, claimed: seq<Aggregate<MessageState>>, ids: seq<string>, worker: string, max: nat, until: nat)
    requires WellNamed(store) && Names(claimed, ids, View(store))
    ensures var view := ClaimView(View(store), order[..FirstUnreadable(store, order)], ids, worker, max, until);
      var result := Scan(store, order, claimed, worker, max, until).result;
      result.Ok? ==> Names(result.value, view.1, view.0)
    decreases |order|
  {
    if order == [] || FirstUnreadable(store, order) == 0 {
      return;
    }
    var id, rest := order[0], order[1..];
    ScanGoesOn(store, order);
    if id !in View(store) {
      ClaimNames(store, rest, claimed, ids, worker, max, until);
    } else if View(store)[id].status == Pending {
      var store', b := ClaimRound(store, order, claimed, worker, max, until);
      NamesOneMore(claimed, ids, View(store), id, Claim(worker, until), b);
      if |ids| + 1 < max {
        ClaimNames(store', rest, claimed + [b], ids + [id], worker, max, until);
      }
    } else if |ids| < max {
      ClaimNames(store, rest, claimed, ids, worker, max, until);
    }
  }

  // ---- Other logs --------------------------------------------------------------------

  /** Logs whose id lacks the prefix are left as they are by all four operations. */
  lemma {:induction false} OrdinaryLogsStay(store: Store, order: seq<string>, claimed: seq<Aggregate<MessageState>>, worker: string, max: nat, until: nat, x: string)
    requires !(ID_PREFIX <= x)
    ensures var after := Scan(store, order, claimed, worker, max, until).store;
      (x in after <==> x in store) && (x in store ==> after[x] == store[x])
    ensures forall id, c :: var after := Settled(store, id, c).1;
      (x in after <==> x in store) && (x in store ==> after[x] == store[x])
    decreases |order|
  {
    if order == [] {
      return;
    }
    var id, rest := order[0], order[1..];
    if !(ID_PREFIX <= id) || id !in store {
      OrdinaryLogsStay(store, rest, claimed, worker, max, until, x);
    } else if MessageAt(store, id).Ok? {
      if View(store)[id].status == Pending {
        var b := Commanded(MessageAt(store, id).value, Claim(worker, until));
        if |claimed| + 1 < max {
          OrdinaryLogsStay(store[id := b.entity.events], rest, claimed + [b.(entity := MarkedCommitted(b.entity))], worker, max, until, x);
        }
      } else if |claimed| < max {
        OrdinaryLogsStay(store, rest, claimed, worker, max, until, x);
      }
    }
  }

  /** And they do not matter to a claim: whatever is stored under such an id, even if it
      would not hydrate as a message, the claim returns the same. */
  lemma {:induction false} OrdinaryLogsAreIgnored(store: Store, order: seq<string>, claimed: seq<Aggregate<MessageState>>, worker: string, max: nat, until: nat, x: string, log: seq<EventRecord>)
    requires !(ID_PREFIX <= x)
    ensures Scan(store[x := log], order, claimed, worker, max, until).result == Scan(store, order, claimed, worker, max, until).result
    decreases |order|
  {
    if order == [] {
      return;
    }
    var id, rest := order[0], order[1..];
    if !(ID_PREFIX <= id) || id !in store {
      OrdinaryLogsAreIgnored(store, rest, claimed, worker, max, until, x, log);
    } else {
      assert MessageAt(store[x := log], id) == MessageAt(store, id);
      if MessageAt(store, id).Ok? {
        if View(store)[id].status == Pending {
          var b := Commanded(MessageAt(store, id).value, Claim(worker, until));
          if |claimed| + 1 < max {
            assert store[x := log][id := b.entity.events] == store[id := b.entity.events][x := log];
            OrdinaryLogsAreIgnored(store[id := b.entity.events], rest, claimed + [b.(entity := MarkedCommitted(b.entity))], worker, max, until, x, log);
          }
        } else if |claimed| < max {
          OrdinaryLogsAreIgnored(store, rest, claimed, worker, max, until, x, log);
        }
      }
    }
  }

  // ---- What a claim takes ------------------------------------------------------------

  /** The pending messages in iteration order. */
  function PendingIn(messages: Messages, order: seq<string>): seq<string>
  {
    if order == [] then []
    else (if order[0] in messages && messages[order[0]].status == Pending then [order[0]] else []) + PendingIn(messages, order[1..])
  }

  lemma {:induction false} PendingElsewhere(messages: Messages, order: seq<string>, id: string, s: MessageState)
    requires id !in order
    ensures PendingIn(messages[id := s], order) == PendingIn(messages, order)
  {
    if order != [] {
      PendingElsewhere(messages, order[1..], id, s);
    }
  }

  function Take(n: nat, ids: seq<string>): seq<string>
  {
    if n <= |ids| then ids[..n] else ids
  }

  /** With max >= 1 a claim takes the first `max` pending messages of the iteration order,
      puts exactly those in flight for the worker, and touches no other message. */
  lemma {:induction false} ClaimTakesFirstPending(messages: Messages, order: seq<string>, claimed: seq<string>, worker: string, max: nat, until: nat)
    requires NoRepeats(order) && |claimed| < max
    ensures var (messages', ids) := ClaimView(messages, order, claimed, worker, max, until);
      var taken := Take(max - |claimed|, PendingIn(messages, order));
      && ids == claimed + taken
      && messages'.Keys == messages.Keys
      && forall id :: id in messages ==>
           messages'[id] == if id in taken then Applied(messages[id], Claim(worker, until)) else messages[id]
    decreases |order|
  {
    if order != [] {
      var id, rest := order[0], order[1..];
      if id in messages && messages[id].status == Pending {
        var s := Applied(messages[id], Claim(worker, until));
        assert id !in rest;
        PendingElsewhere(messages, rest, id, s);
        PendingMembers(messages, rest);
        assert PendingIn(messages, order) == [id] + PendingIn(messages, rest);
        assert Take(max - |claimed|, PendingIn(messages, order)) == [id] + Take(max - |claimed| - 1, PendingIn(messages, rest));
        if |claimed| + 1 < max {
          ClaimTakesFirstPending(messages[id := s], rest, claimed + [id], worker, max, until);
        }
      } else {
        assert PendingIn(messages, order) == PendingIn(messages, rest);
        ClaimTakesFirstPending(messages, rest, claimed, worker, max, until);
      }
    }
  }

  lemma {:induction false} PendingMembers(messages: Messages, order: seq<string>)
    ensures forall id :: id in PendingIn(messages, order) ==> id in order && id in messages && messages[id].status == Pending
  {
    if order != [] {
      PendingMembers(messages, order[1..]);
    }
  }

  /** The first message the scan looks at is pending. */
  predicate FirstIsPending(messages: Messages, order: seq<string>)
  {
    order != [] &&
    if order[0] in messages then messages[order[0]].status == Pending else FirstIsPending(messages, order[1..])
  }

  /** `max` is respected exactly when it is positive or the first message visited is not
      pending: with max = 0 the scan can still hand out one message. */
  lemma {:induction false} ClaimRespectsMaxIff(messages: Messages, order: seq<string>, worker: string, max: nat, until: nat)
    requires NoRepeats(order)
    ensures |ClaimView(messages, order, [], worker, max, until).1| <= max <==> max > 0 || !FirstIsPending(messages, order)
  {
    if max > 0 {
      ClaimTakesFirstPending(messages, order, [], worker, max, until);
    } else if order != [] && order[0] !in messages {
      ClaimRespectsMaxIff(messages, order[1..], worker, max, until);
    }
  }

  /** What a claim takes before the first log it cannot read, and how that decides. */
  lemma ClaimUpToUnreadable(store: Store, order: seq<string>, worker: string, max: nat, until: nat)
    requires NoRepeats(order)
    ensures var outcome := Scan(store, order, [], worker, max, until);
      var n := FirstUnreadable(store, order);
      var before := PendingIn(View(store), order[..n]);
      && (max > 0 ==> (outcome.result.Err? <==> n < |order| && |before| < max))
      && (outcome.result.Err? ==> View(outcome.store).Keys == View(store).Keys && forall id :: id in View(store) ==>
           View(outcome.store)[id] == if max > 0 && id in before then Applied(View(store)[id], Claim(worker, until)) else View(store)[id])
  {
    if max > 0 {
      ClaimRefines(store, order, [], [], worker, max, until);
      ClaimBlocksIff(store, order, [], [], worker, max, until);
      ClaimTakesFirstPending(View(store), order[..FirstUnreadable(store, order)], [], worker, max, until);
    } else if Scan(store, order, [], worker, max, until).result.Err? {
      EmptyClaimFailsUnchanged(store, order, worker, until);
    }
  }

  /** A claim with max >= 1 fails exactly when the iteration order contains a log that does
      not hydrate and fewer than `max` pending messages come before the first such log. */
  lemma ClaimFailsIff(store: Store, order: seq<string>, worker: string, max: nat, until: nat)
    requires NoRepeats(order) && max > 0
    ensures var n := FirstUnreadable(store, order);
      Scan(store, order, [], worker, max, until).result.Err? <==> n < |order| && |PendingIn(View(store), order[..n])| < max
  {
    ClaimUpToUnreadable(store, order, worker, max, until);
  }

  /** The claim puts `id` in flight and hands it to nobody. */
  ghost predicate Strands(outcome: ClaimOutcome, store: Store, id: string)
  {
    && outcome.result.Err?
    && id in View(store) && View(store)[id].status == Pending
    && id in View(outcome.store) && View(outcome.store)[id].status == InFlight
  }

  /** A claim that fails returns only the error. It has stranded a message exactly when
      there is an unreadable log and at least one but fewer than `max` pending messages
      come before the first one; those are the messages it has stranded. */
  lemma ClaimStrandsIff(store: Store, order: seq<string>, worker: string, max: nat, until: nat)
    requires NoRepeats(order)
    ensures var outcome := Scan(store, order, [], worker, max, until);
      var n := FirstUnreadable(store, order);
      var before := PendingIn(View(store), order[..n]);
      && ((exists id :: Strands(outcome, store, id)) <==> n < |order| && 0 < |before| < max)
      && (outcome.result.Err? && max > 0 ==> forall id :: Strands(outcome, store, id) <==> id in before)
  {
    ClaimUpToUnreadable(store, order, worker, max, until);
    var outcome := Scan(store, order, [], worker, max, until);
    var before := PendingIn(View(store), order[..FirstUnreadable(store, order)]);
    PendingMembers(View(store), order[..FirstUnreadable(store, order)]);
    if outcome.result.Err? && max > 0 {
      forall id ensures Strands(outcome, store, id) <==> id in before {}
      if before != [] {
        assert before[0] in before;
      }
    }
  }

  /** The smallest case: one pending message, then one unreadable log. */
  lemma FailedClaimStrandsMessage(store: Store, good: string, bad: string, worker: string, max: nat, until: nat)
    requires good != bad && Readable(store, good) && bad in store && IsOutboxId(bad) && !Readable(store, bad) && max >= 2
    requires View(store)[good].status == Pending
    ensures var outcome := Scan(store, [good, bad], [], worker, max, until);
      && outcome.result.Err? && good in View(outcome.store)
      && View(outcome.store)[good] == Applied(View(store)[good], Claim(worker, until))
      && View(outcome.store)[good].status == InFlight
  {
    var order := [good, bad];
    assert order[1..] == [bad] && FirstUnreadable(store, [bad]) == 0 && FirstUnreadable(store, order) == 1;
    assert order[..1] == [good] && [good][1..] == [];
    assert PendingIn(View(store), [good]) == [good] + PendingIn(View(store), []);
    ClaimUpToUnreadable(store, order, worker, max, until);
  }

  // ---- The operations ----------------------------------------------------------------

  lemma NoUpcasters(events: seq<EventRecord>)
    ensures UpcastEvents([], events) == events
  {
    forall i | 0 <= i < |events| ensures Upcast([], events[i]) == events[i] {}
  }

  method ReplayMessageEvent(message: OutboxMessage, event: EventRecord) returns (result: Result<(), RepositoryError>)
    requires message.entity.replaying
    modifies message, message.entity
    ensures match Replayed(OUTBOX, old(message.Value()), event)
      case Ok(a) => result == Ok(()) && message.Value() == a
      case Err(error) => result == Err(error) && message.Value() == old(message.Value())
  {
    var c := Decode(event.name, event.payload);
    match c {
      case None => return Err(Replay(event.name));
      case Some(Initialize(id, eventType, payload, destination, metadata)) =>
        message.Initialize(id, eventType, payload, destination, metadata);
      case Some(Claim(worker, until)) => message.Claim(worker, until);
      case Some(Complete) => message.Complete();
      case Some(Release(error)) => message.Release(error);
      case Some(Fail(error)) => message.Fail(error);
    }
    result := Ok(());
  }

  /** `hydrate` for outbox messages, which have no upcasters. */
  method HydrateMessage(entity: Entity) returns (result: Result<OutboxMessage, RepositoryError>)
    modifies entity
    ensures !entity.replaying
    ensures match Hydrated(OUTBOX, old(entity.Value()))
      case Ok(a) => result.Ok? && fresh(result.value) && result.value.entity == entity && result.value.Value() == a
      case Err(error) => result == Err(error)
  {
    ghost var start := SetReplaying(New(OUTBOX).(entity := entity.Value()), true);
    var message := new OutboxMessage(entity);
    var events := entity.events;
    NoUpcasters(events);
    entity.SetReplaying(true);
    for i := 0 to |events|
      invariant ReplayedAll(OUTBOX, start, events[..i]) == Ok(message.Value())
      invariant entity.replaying
    {
      ReplayIsFold(OUTBOX, start, events[..i + 1]);
      assert events[..i + 1][..i] == events[..i];
      var replayed := ReplayMessageEvent(message, events[i]);
      if replayed.Err? {
        entity.SetReplaying(false);
        ReplayStopsAt(OUTBOX, start, events, i + 1);
        return Err(replayed.error);
      }
    }
    assert events[..|events|] == events;
    entity.SetReplaying(false);
    result := Ok(message);
  }

  /** The message behind one stored log. */
  method LoadMessage(repo: HashMapRepository, id: string) returns (result: Result<OutboxMessage, RepositoryError>)
    requires id in repo.eventStore
    ensures match MessageAt(repo.eventStore, id)
      case Ok(a) => result.Ok? && fresh(result.value) && fresh(result.value.entity) && result.value.Value() == a
      case Err(error) => result == Err(error)
  {
    var entity := new Entity.WithId(id);
    entity.LoadFromHistory(repo.eventStore[id]);
    result := HydrateMessage(entity);
  }

  method CompleteOutboxMessage(repo: HashMapRepository, messageId: string) returns (result: Result<(), RepositoryError>)
    modifies repo
    ensures (result, repo.eventStore) == Settled(old(repo.eventStore), messageId, Complete)
  {
    var id := NormalizeId(messageId);
    if id in repo.eventStore {
      var loaded := LoadMessage(repo, id);
      if loaded.Err? {
        return Err(loaded.error);
      }
      if loaded.value.status == InFlight {
        loaded.value.Complete();
        repo.eventStore := repo.eventStore[id := loaded.value.entity.events];
      }
    }
    result := Ok(());
  }

  method ReleaseOutboxMessage(repo: HashMapRepository, messageId: string, error: string) returns (result: Result<(), RepositoryError>)
    modifies repo
    ensures (result, repo.eventStore) == Settled(old(repo.eventStore), messageId, Release(error))
  {
    var id := NormalizeId(messageId);
    if id in repo.eventStore {
      var loaded := LoadMessage(repo, id);
      if loaded.Err? {
        return Err(loaded.error);
      }
      if loaded.value.status == InFlight {
        loaded.value.Release(error);
        repo.eventStore := repo.eventStore[id := loaded.value.entity.events];
      }
    }
    result := Ok(());
  }

  method FailOutboxMessage(repo: HashMapRepository, messageId: string, error: string) returns (result: Result<(), RepositoryError>)
    modifies repo
    ensures (result, repo.eventStore) == Settled(old(repo.eventStore), messageId, Fail(error))
  {
    var id := NormalizeId(messageId);
    if id in repo.eventStore {
      var loaded := LoadMessage(repo, id);
      if loaded.Err? {
        return Err(loaded.error);
      }
      loaded.value.Fail(error);
      repo.eventStore := repo.eventStore[id := loaded.value.entity.events];
    }
    result := Ok(());
  }

  ghost function MessageValues(messages: seq<OutboxMessage>): (values: seq<Aggregate<MessageState>>)
    reads messages, set m | m in messages :: m.entity
    ensures |values| == |messages|
    ensures forall i :: 0 <= i < |messages| ==> values[i] == messages[i].Value()
  {
    if messages == [] then []
    else MessageValues(messages[..|messages| - 1]) + [messages[|messages| - 1].Value()]
  }

  /** The body of the claim loop for one outbox id. */
  method ClaimIfPending(repo: HashMapRepository, id: string, worker: string, until: nat)
    returns (result: Result<Option<OutboxMessage>, RepositoryError>)
    requires id in repo.eventStore
    modifies repo
    ensures match MessageAt(old(repo.eventStore), id)
      case Err(error) => result == Err(error) && repo.eventStore == old(repo.eventStore)
      case Ok(a) =>
        if a.state.status == Pending then
          var b := Commanded(a, Command.Claim(worker, until));
          && result.Ok? && result.value.Some? && fresh(result.value.value) && fresh(result.value.value.entity)
          && result.value.value.Value() == b.(entity := MarkedCommitted(b.entity))
          && repo.eventStore == old(repo.eventStore)[id := b.entity.events]
        else result == Ok(None) && repo.eventStore == old(repo.eventStore)
  {
    var loaded := LoadMessage(repo, id);
    if loaded.Err? {
      return Err(loaded.error);
    }
    var message := loaded.value;
    if message.status != Pending {
      return Ok(None);
    }
    message.Claim(worker, until);
    repo.eventStore := repo.eventStore[id := message.entity.events];
    message.entity.MarkCommitted();
    result := Ok(Some(message));
  }

  /** `order` is the iteration order of the hash map. */
  method ClaimOutboxMessages(repo: HashMapRepository, order: seq<string>, worker: string, max: nat, until: nat)
    returns (result: Result<seq<OutboxMessage>, RepositoryError>)
    modifies repo
    ensures var outcome := Scan(old(repo.eventStore), order, [], worker, max, until);
      && repo.eventStore == outcome.store
      && match outcome.result
         case Ok(claimed) => result.Ok? && MessageValues(result.value) == claimed
         case Err(error) => result == Err(error)
  {
    var claimed: seq<OutboxMessage> := [];
    ghost var values := [];
    for i := 0 to |order|
      invariant MessageValues(claimed) == values
      invariant Scan(old(repo.eventStore), order, [], worker, max, until)
        == Scan(repo.eventStore, order[i..], values, worker, max, until)
    {
      var id := order[i];
      ScanCons(repo.eventStore, order[i..], values, worker, max, until);
      assert order[i..][1..] == order[i + 1..];
      if !(ID_PREFIX <= id) || id !in repo.eventStore {
        continue;
      }
      var attempt := ClaimIfPending(repo, id, worker, until);
      assert MessageValues(claimed) == values;
      if attempt.Err? {
        return Err(attempt.error);
      }
      if attempt.value.Some? {
        values := values + [attempt.value.value.Value()];
        assert (claimed + [attempt.value.value])[..|claimed|] == claimed;
        claimed := claimed + [attempt.value.value];
      }
      if |claimed| >= max {
        return Ok(claimed);
      }
    }
    result := Ok(claimed);
  }

  /** One round of the scan. */
  lemma ScanCons(store: Store, order: seq<string>, claimed: seq<Aggregate<MessageState>>, worker: string, max: nat, until: nat)
    requires order != []
    ensures var id, rest := order[0], order[1..];
      Scan(store, order, claimed, worker, max, until) ==
        if !IsOutboxId(id) || id !in store then Scan(store, rest, claimed, worker, max, until)
        else
          match MessageAt(store, id)
          case Err(error) => ClaimOutcome(Err(error), store)
          case Ok(a) =>
            var b := Commanded(a, Claim(worker, until));
            var (store', claimed') :=
              if a.state.status == Pending then (store[id := b.entity.events], claimed + [b.(entity := MarkedCommitted(b.entity))])
              else (store, claimed);
            if |claimed'| >= max then ClaimOutcome(Ok(claimed'), store') else Scan(store', rest, claimed', worker, max, until)
  {
  }
}
