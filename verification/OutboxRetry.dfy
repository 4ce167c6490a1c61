/** The stand-alone outbox worker and its retry policy (src/outbox_worker/worker.rs). The
    publisher's answers are inputs: nothing, or the error text. */
module OutboxRetry {
  import opened Basics
  import opened Events
  import opened Aggregates
  import opened OutboxMessages

  datatype ProcessOneResult = ProcessOneResult(didWork: bool, completed: bool, released: bool, failed: bool)

  /** What the publisher is given. */
  datatype Item = Item(eventType: string, payload: seq<byte>, metadata: map<string, string>)

  const IDLE := ProcessOneResult(false, false, false, false)

  datatype DrainResult = DrainResult(claimed: nat, completed: nat, released: nat, failed: nat)

  datatype Policy = Policy(workerId: string, batchSize: nat, until: nat, maxAttempts: nat)

  /** A message that is still pending is claimed before it is published. */
  function Held(p: Policy, a: Aggregate<MessageState>): Aggregate<MessageState>
  {
    if a.state.status == Pending then Commanded(a, Claim(p.workerId, p.until)) else a
  }

  /** The attempts of a message once it is held. */
  function Spent(s: MessageState): nat
  {
    if s.status == Pending then s.attempts + 1 else s.attempts
  }

  /** The command a publish answer leads to. */
  function Verdict(p: Policy, attempts: nat, answer: Option<string>): Command
  {
    match answer
    case None => Complete
    case Some(error) => if attempts >= p.maxAttempts then Fail(error) else Release(error)
  }

  function Processed(p: Policy, a: Aggregate<MessageState>, answer: Option<string>): Aggregate<MessageState>
  {
    if Terminal(a.state) then a
    else
      var held := Held(p, a);
      Commanded(held, Verdict(p, Spent(a.state), answer))
  }

  function ResultOf(c: Command): ProcessOneResult
  {
    ProcessOneResult(true, c.Complete?, c.Release?, c.Fail?)
  }

  function OneResult(p: Policy, s: MessageState, answer: Option<string>): ProcessOneResult
  {
    if Terminal(s) then IDLE else ResultOf(Verdict(p, Spent(s), answer))
  }

  class OutboxWorker {
    const policy: Policy

    constructor (policy: Policy)
      ensures this.policy == policy
    {
      this.policy := policy;
    }

    method ProcessMessage(message: OutboxMessage, answer: Option<string>) returns (result: ProcessOneResult, published: Option<Item>)
      modifies message, message.entity
      ensures message.Value() == Processed(policy, old(message.Value()), answer)
      ensures var s := old(message.State());
        published == if s.status == Published || s.status == Failed then None else Some(Item(s.eventType, s.payload, s.metadata))
      ensures result == OneResult(policy, old(message.State()), answer)
    {
      published := None;
      if message.status == Published || message.status == Failed {
        return IDLE, None;
      }
      if message.status == Pending {
        message.Claim(policy.workerId, policy.until);
      }
      published := Some(Item(message.eventType, message.payload, message.metadata));
      match answer {
        case None =>
          message.Complete();
          result := ProcessOneResult(true, true, false, false);
        case Some(error) =>
          if message.attempts >= policy.maxAttempts {
            message.Fail(error);
            result := ProcessOneResult(true, false, false, true);
          } else {
            message.Release(error);
            result := ProcessOneResult(true, false, true, false);
          }
      }
    }

    /** Only the first `batchSize` messages are processed, each once, in order. `before`
        are the messages as they come in. */
    method ProcessBatch(messages: seq<OutboxMessage>, answers: seq<Option<string>>, ghost before: seq<Aggregate<MessageState>>)
      returns (result: DrainResult)
      requires |answers| == |messages| == |before|
      requires forall i, j :: 0 <= i < j < |messages| ==> messages[i] != messages[j] && messages[i].entity != messages[j].entity
      requires forall i :: 0 <= i < |messages| ==> messages[i].Value() == before[i]
      modifies messages, set m | m in messages :: m.entity
      ensures result == Tally(policy, before, answers, BatchLength(policy, |messages|))
      ensures forall i :: 0 <= i < |messages| ==>
        messages[i].Value() == if i < policy.batchSize then Processed(policy, before[i], answers[i]) else before[i]
    {
      result := NOTHING;
      var n := BatchLength(policy, |messages|);
      for i := 0 to n
        invariant result == Tally(policy, before, answers, i)
        invariant forall j :: 0 <= j < i ==> messages[j].Value() == Processed(policy, before[j], answers[j])
        invariant forall j :: i <= j < |messages| ==> messages[j].Value() == before[j]
      {
        var processed := ProcessNext(messages, i, answers[i]);
        result := Record(result, processed);
      }
    }

    /** One round of the batch: only message `i` changes. */
    method ProcessNext(messages: seq<OutboxMessage>, i: nat, answer: Option<string>) returns (result: ProcessOneResult)
      requires i < |messages|
      requires forall j, k :: 0 <= j < k < |messages| ==> messages[j] != messages[k] && messages[j].entity != messages[k].entity
      modifies messages[i], messages[i].entity
      ensures messages[i].Value() == Processed(policy, old(messages[i].Value()), answer)
      ensures result == OneResult(policy, old(messages[i].State()), answer)
      ensures forall j :: 0 <= j < |messages| && j != i ==> messages[j].Value() == old(messages[j].Value())
    {
      var processed, _ := ProcessMessage(messages[i], answer);
      result := processed;
    }

    static method Record(result: DrainResult, processed: ProcessOneResult) returns (updated: DrainResult)
      ensures updated == Added(result, processed)
    {
      updated := result;
      if processed.didWork {
        updated := updated.(claimed := updated.claimed + 1);
      }
      if processed.completed {
        updated := updated.(completed := updated.completed + 1);
      }
      if processed.released {
        updated := updated.(released := updated.released + 1);
      }
      if processed.failed {
        updated := updated.(failed := updated.failed + 1);
      }
    }
  }

  const NOTHING := DrainResult(0, 0, 0, 0)

  function BatchLength(p: Policy, available: nat): (n: nat)
    ensures n <= available
  {
    if available < p.batchSize then available else p.batchSize
  }

  function One(flag: bool): nat
  {
    if flag then 1 else 0
  }

  function Added(d: DrainResult, r: ProcessOneResult): DrainResult
  {
    DrainResult(d.claimed + One(r.didWork), d.completed + One(r.completed), d.released + One(r.released), d.failed + One(r.failed))
  }

  /** The counters after the first `n` messages: terminal ones count nowhere. */
  function Tally(p: Policy, messages: seq<Aggregate<MessageState>>, answers: seq<Option<string>>, n: nat): DrainResult
    requires n <= |messages| == |answers|
  {
    if n == 0 then NOTHING
    else Added(Tally(p, messages, answers, n - 1), OneResult(p, messages[n - 1].state, answers[n - 1]))
  }

  lemma ReportBalances(p: Policy, s: MessageState, answer: Option<string>)
    ensures var r := OneResult(p, s, answer);
      One(r.didWork) == One(r.completed) + One(r.released) + One(r.failed) && r.didWork == !Terminal(s)
  {
  }

  lemma AddedBalances(d: DrainResult, r: ProcessOneResult)
    requires d.claimed == d.completed + d.released + d.failed && One(r.didWork) == One(r.completed) + One(r.released) + One(r.failed)
    ensures var e := Added(d, r); e.claimed == e.completed + e.released + e.failed && e.claimed == d.claimed + One(r.didWork)
  {
  }

  /** Whatever a batch counts as claimed is completed, released or failed, and the
      messages not counted were terminal before. */
  lemma {:induction false} TallyBalances(p: Policy, messages: seq<Aggregate<MessageState>>, answers: seq<Option<string>>, n: nat)
    requires n <= |messages| == |answers|
    ensures var d := Tally(p, messages, answers, n);
      d.claimed == d.completed + d.released + d.failed && d.claimed <= n
    ensures Tally(p, messages, answers, n).claimed == n <==> forall i :: 0 <= i < n ==> !Terminal(messages[i].state)
  {
    if n > 0 {
      TallyBalances(p, messages, answers, n - 1);
      ReportBalances(p, messages[n - 1].state, answers[n - 1]);
      AddedBalances(Tally(p, messages, answers, n - 1), OneResult(p, messages[n - 1].state, answers[n - 1]));
    }
  }

  // ---- What is reported is what was done ---------------------------------------------

  /** A call did work exactly on live messages, and says what became of them. */
  lemma ReportTells(p: Policy, a: Aggregate<MessageState>, answer: Option<string>)
    ensures var r, after := OneResult(p, a.state, answer), Processed(p, a, answer).state.status;
      && r.didWork == (a.state.status == Pending || a.state.status == InFlight)
      && r.completed == (r.didWork && after == Published)
      && r.released == (r.didWork && after == Pending)
      && r.failed == (r.didWork && after == Failed)
  {
  }

  /** The call finds the message live and leaves it in that status. */
  predicate EndsIn(p: Policy, a: Aggregate<MessageState>, answer: Option<string>, status: Status)
  {
    (a.state.status == Pending || a.state.status == InFlight) && Processed(p, a, answer).state.status == status
  }

  lemma ReportEnds(p: Policy, a: Aggregate<MessageState>, answer: Option<string>)
    ensures var r := OneResult(p, a.state, answer);
      r.completed == EndsIn(p, a, answer, Published) && r.released == EndsIn(p, a, answer, Pending) && r.failed == EndsIn(p, a, answer, Failed)
  {
    ReportTells(p, a, answer);
  }

  /** How many of the first `n` messages end in a status. */
  function EndingIn(p: Policy, messages: seq<Aggregate<MessageState>>, answers: seq<Option<string>>, n: nat, status: Status): nat
    requires n <= |messages| == |answers|
  {
    if n == 0 then 0
    else EndingIn(p, messages, answers, n - 1, status) + One(EndsIn(p, messages[n - 1], answers[n - 1], status))
  }

  /** The counters of a batch are the numbers of live messages that it published, gave back
      and failed. */
  lemma {:induction false} TallyTells(p: Policy, messages: seq<Aggregate<MessageState>>, answers: seq<Option<string>>, n: nat)
    requires n <= |messages| == |answers|
    ensures var d := Tally(p, messages, answers, n);
      && d.completed == EndingIn(p, messages, answers, n, Published)
      && d.released == EndingIn(p, messages, answers, n, Pending)
      && d.failed == EndingIn(p, messages, answers, n, Failed)
  {
    if n > 0 {
      TallyTells(p, messages, answers, n - 1);
      ReportEnds(p, messages[n - 1], answers[n - 1]);
    }
  }

  function ClaimRecorded(p: Policy, s: MessageState): seq<Command>
  {
    if s.status == Pending then [Claim(p.workerId, p.until)] else []
  }

  lemma HeldRecords(p: Policy, a: Aggregate<MessageState>)
    requires !a.entity.replaying && !Terminal(a.state)
    ensures var held := Held(p, a);
      && !held.entity.replaying && held.state.status == InFlight
      && DecodedLog(held.entity.events) == DecodedLog(a.entity.events) + ClaimRecorded(p, a.state)
  {
    if a.state.status == Pending {
      CommandedDecodes(a, Claim(p.workerId, p.until));
    } else {
      assert DecodedLog(a.entity.events) + [] == DecodedLog(a.entity.events);
    }
  }

  lemma VerdictRecords(held: Aggregate<MessageState>, c: Command)
    requires !held.entity.replaying && held.state.status == InFlight && (c.Complete? || c.Release? || c.Fail?)
    ensures DecodedLog(Commanded(held, c).entity.events) == DecodedLog(held.entity.events) + [c]
  {
    CommandedDecodes(held, c);
  }

  /** A call records the claim of a pending message under the worker's name and lease, and
      then completion, failure or release, the last two with the publisher's error. */
  lemma ProcessedRecords(p: Policy, a: Aggregate<MessageState>, answer: Option<string>)
    requires !a.entity.replaying
    ensures var log, log' := DecodedLog(a.entity.events), DecodedLog(Processed(p, a, answer).entity.events);
      if a.state.status == Published || a.state.status == Failed then log' == log
      else
        var attempts := a.state.attempts + |ClaimRecorded(p, a.state)|;
        log' == log + ClaimRecorded(p, a.state) + [
          match answer
          case None => Complete
          case Some(error) => if attempts >= p.maxAttempts then Fail(error) else Release(error)]
  {
    if !Terminal(a.state) {
      HeldRecords(p, a);
      VerdictRecords(Held(p, a), Verdict(p, Spent(a.state), answer));
    }
  }

  /** What a call depends on, and what the bound is about. */
  datatype Life = Life(status: Status, attempts: nat)

  function LifeOf(s: MessageState): Life
  {
    Life(s.status, s.attempts)
  }

  predicate Over(l: Life)
  {
    l.status == Published || l.status == Failed
  }

  function NextLife(p: Policy, l: Life, answer: Option<string>): Life
  {
    if Over(l) then l
    else
      var attempts := if l.status == Pending then l.attempts + 1 else l.attempts;
      Life(if answer.None? then Published else if attempts >= p.maxAttempts then Failed else Pending, attempts)
  }

  lemma ProcessedHasLife(p: Policy, a: Aggregate<MessageState>, answer: Option<string>)
    ensures LifeOf(Processed(p, a, answer).state) == NextLife(p, LifeOf(a.state), answer)
  {
  }

  /** A message's life after `n` calls. */
  function LifeAfter(p: Policy, l: Life, answers: nat -> Option<string>, n: nat): Life
  {
    if n == 0 then l else NextLife(p, LifeAfter(p, l, answers, n - 1), answers(n - 1))
  }

  /** How many of `n` calls from this state reach the publisher. */
  function PublishesFrom(p: Policy, l: Life, answers: nat -> Option<string>, n: nat): nat
  {
    if n == 0 then 0
    else PublishesFrom(p, l, answers, n - 1) + if Over(LifeAfter(p, l, answers, n - 1)) then 0 else 1
  }

  lemma NextCall(p: Policy, l: Life, answers: nat -> Option<string>, n: nat)
    ensures LifeAfter(p, l, answers, n + 1) == NextLife(p, LifeAfter(p, l, answers, n), answers(n))
    ensures PublishesFrom(p, l, answers, n + 1) == PublishesFrom(p, l, answers, n) + if Over(LifeAfter(p, l, answers, n)) then 0 else 1
  {
  }

  /** Calls left for a pending message: max(1, maxAttempts - attempts). */
  function Budget(p: Policy, attempts: nat): nat
  {
    if attempts + 1 >= p.maxAttempts then 1 else p.maxAttempts - attempts
  }

  lemma ProcessPending(p: Policy, l: Life, answer: Option<string>)
    requires l.status == Pending
    ensures var t := NextLife(p, l, answer);
      && t.attempts == l.attempts + 1
      && t.status == if answer.None? then Published else if Budget(p, l.attempts) == 1 then Failed else Pending
  {
  }

  /** As long as the publisher refuses, each call costs one attempt and one publish; the
      message fails with the last call of its budget and not before. */
  lemma {:induction false} RefusedCalls(p: Policy, l: Life, answers: nat -> Option<string>, n: nat)
    requires l.status == Pending && n <= Budget(p, l.attempts)
    requires forall i: nat :: i < n ==> answers(i).Some?
    ensures var t := LifeAfter(p, l, answers, n);
      && t.attempts == l.attempts + n
      && t.status == if n < Budget(p, l.attempts) then Pending else Failed
    ensures PublishesFrom(p, l, answers, n) == n
  {
    if n > 0 {
      RefusedCalls(p, l, answers, n - 1);
      ProcessPending(p, LifeAfter(p, l, answers, n - 1), answers(n - 1));
    }
  }

  lemma {:induction false} TerminalCalls(p: Policy, l: Life, answers: nat -> Option<string>, m: nat, n: nat)
    requires Over(LifeAfter(p, l, answers, m)) && m <= n
    ensures LifeAfter(p, l, answers, n) == LifeAfter(p, l, answers, m)
  {
    if m < n {
      TerminalCalls(p, l, answers, m, n - 1);
    }
  }

  lemma {:induction false} TerminalPublishes(p: Policy, l: Life, answers: nat -> Option<string>, m: nat, n: nat)
    requires Over(LifeAfter(p, l, answers, m)) && m <= n
    ensures PublishesFrom(p, l, answers, n) == PublishesFrom(p, l, answers, m)
  {
    if m < n {
      TerminalPublishes(p, l, answers, m, n - 1);
      TerminalCalls(p, l, answers, m, n - 1);
    }
  }

  /** The number of refusals before the first success, or `budget`. */
  function Refusals(answers: nat -> Option<string>, budget: nat): (r: nat)
    ensures r <= budget
    ensures forall i: nat :: i < r ==> answers(i).Some?
    ensures r < budget ==> answers(r).None?
  {
    if budget == 0 then 0
    else
      var r := Refusals(answers, budget - 1);
      if r == budget - 1 && answers(r).Some? then budget else r
  }

  lemma RefusedThenTaken(p: Policy, l: Life, answers: nat -> Option<string>, r: nat, n: nat)
    requires l.status == Pending && r < Budget(p, l.attempts) && r < n
    requires (forall i: nat :: i < r ==> answers(i).Some?) && answers(r).None?
    ensures LifeAfter(p, l, answers, n).status == Published && PublishesFrom(p, l, answers, n) == r + 1
  {
    RefusedCalls(p, l, answers, r);
    NextCall(p, l, answers, r);
    ProcessPending(p, LifeAfter(p, l, answers, r), answers(r));
    TerminalCalls(p, l, answers, r + 1, n);
    TerminalPublishes(p, l, answers, r + 1, n);
  }

  lemma RefusedThroughout(p: Policy, l: Life, answers: nat -> Option<string>, n: nat)
    requires l.status == Pending && n >= Budget(p, l.attempts)
    requires forall i: nat :: i < Budget(p, l.attempts) ==> answers(i).Some?
    ensures LifeAfter(p, l, answers, n).status == Failed && PublishesFrom(p, l, answers, n) == Budget(p, l.attempts)
  {
    var budget := Budget(p, l.attempts);
    RefusedCalls(p, l, answers, budget);
    TerminalCalls(p, l, answers, budget, n);
    TerminalPublishes(p, l, answers, budget, n);
  }

  lemma LifeBound(p: Policy, l: Life, answers: nat -> Option<string>, n: nat)
    requires l.status == Pending && n >= Budget(p, l.attempts)
    ensures var budget := Budget(p, l.attempts);
      var r := Refusals(answers, budget);
      && LifeAfter(p, l, answers, n).status == (if r < budget then Published else Failed)
      && PublishesFrom(p, l, answers, n) == (if r < budget then r + 1 else budget)
  {
    var r := Refusals(answers, Budget(p, l.attempts));
    if r < Budget(p, l.attempts) {
      RefusedThenTaken(p, l, answers, r, n);
    } else {
      RefusedThroughout(p, l, answers, n);
    }
  }

  // ---- What that means for the message -----------------------------------------------

  /** A message after `n` calls of `ProcessMessage`, with the publisher answering
      `answers(0)`, `answers(1)`, ... */
  function Retried(p: Policy, a: Aggregate<MessageState>, answers: nat -> Option<string>, n: nat): Aggregate<MessageState>
  {
    if n == 0 then a else Processed(p, Retried(p, a, answers, n - 1), answers(n - 1))
  }

  /** How many of those calls reach the publisher: the ones that find a live message. */
  function Publishes(p: Policy, a: Aggregate<MessageState>, answers: nat -> Option<string>, n: nat): nat
  {
    if n == 0 then 0
    else Publishes(p, a, answers, n - 1) + if Terminal(Retried(p, a, answers, n - 1).state) then 0 else 1
  }

  lemma {:induction false} RetriedHasLife(p: Policy, a: Aggregate<MessageState>, answers: nat -> Option<string>, n: nat)
    ensures LifeOf(Retried(p, a, answers, n).state) == LifeAfter(p, LifeOf(a.state), answers, n)
  {
    if n > 0 {
      RetriedHasLife(p, a, answers, n - 1);
      ProcessedHasLife(p, Retried(p, a, answers, n - 1), answers(n - 1));
    }
  }

  lemma {:induction false} PublishesHasLife(p: Policy, a: Aggregate<MessageState>, answers: nat -> Option<string>, n: nat)
    ensures Publishes(p, a, answers, n) == PublishesFrom(p, LifeOf(a.state), answers, n)
  {
    if n > 0 {
      PublishesHasLife(p, a, answers, n - 1);
      RetriedHasLife(p, a, answers, n - 1);
    }
  }

  /** Retry bound: whatever the publisher does, a pending message reaches Published or
      Failed within max(1, maxAttempts - attempts) calls; it is Published exactly when one
      of those answers was a success. Every call before that publishes once and no later
      call publishes. */
  lemma RetryBound(p: Policy, a: Aggregate<MessageState>, answers: nat -> Option<string>, n: nat)
    requires a.state.status == Pending && n >= Budget(p, a.state.attempts)
    ensures var budget := Budget(p, a.state.attempts);
      var r := Refusals(answers, budget);
      && Retried(p, a, answers, n).state.status == (if r < budget then Published else Failed)
      && Publishes(p, a, answers, n) == (if r < budget then r + 1 else budget)
  {
    LifeBound(p, LifeOf(a.state), answers, n);
    RetriedHasLife(p, a, answers, n);
    PublishesHasLife(p, a, answers, n);
  }

  /** Before that, each refusal costs one attempt and one publish, and the message is
      pending again until the last call of its budget fails it. */
  lemma RefusalsCostAttempts(p: Policy, a: Aggregate<MessageState>, answers: nat -> Option<string>, n: nat)
    requires a.state.status == Pending && n <= Budget(p, a.state.attempts)
    requires forall i: nat :: i < n ==> answers(i).Some?
    ensures var s := Retried(p, a, answers, n).state;
      && s.attempts == a.state.attempts + n
      && s.status == if n < Budget(p, a.state.attempts) then Pending else Failed
    ensures Publishes(p, a, answers, n) == n
  {
    RefusedCalls(p, LifeOf(a.state), answers, n);
    RetriedHasLife(p, a, answers, n);
    PublishesHasLife(p, a, answers, n);
  }
}
