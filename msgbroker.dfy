/** One topic consumer of the message broker (`consumeMessages` in
    internal/items/msgbroker/msgbroker.go), taken as a sequential loop.

    What the channel delivers and when the context is cancelled is an input:
    a finite sequence of events, each either a delivery or the done signal.
    A delivery carries what the program learns about it along the way:
    whether its body decodes as the topic's request message and what the
    service handler returns when it is called. The service handlers
    themselves are outside this module; the consumer's own decisions
    (which handler, Ack or Nack, when to stop) are modelled exactly. */
module Msgbroker {
  import opened Mongo
  import GoalStorage

  /** The service methods a consumer can dispatch to. */
  datatype Handler =
    | CreateTransaction      // TransactionService.CreateTransaction
    | UpdateBudget           // BudgetService.UpdateBudget
    | UpdateGoal             // GoalService.UpdateGoal
    | GetNotifications       // NotificationService.GetNotifications

  /** What a handler returned: a response message (possibly a nil one, as
      for an update that matched nothing) or an error. */
  datatype Outcome = Response(isNil: bool) | HandlerError

  /** An `amqp.Delivery` as the consumer sees it. */
  datatype Delivery = Delivery(tag: nat, decodes: bool, outcome: Outcome)

  /** What the `select` takes next. */
  datatype Event = Receive(delivery: Delivery) | ContextDone

  /** An acknowledgement sent back on the channel: `Ack(multiple)` or
      `Nack(multiple, requeue)` for one delivery tag. */
  datatype Resolution =
    | Ack(tag: nat, multiple: bool)
    | Nack(tag: nat, multiple: bool, requeue: bool)

  /** One call into the service layer, for the delivery with this tag. */
  datatype Call = Call(handler: Handler, tag: nat)

  // ---------------------------------------------------------------------
  // The topic table

  /** The topic a handler serves. */
  function TopicOf(h: Handler): string
  {
    match h
    case CreateTransaction => "transaction_created"
    case UpdateBudget => "budget_updated"
    case UpdateGoal => "goal_progress_updated"
    case GetNotifications => "notification_created"
  }

  /** The `switch logPrefix`: the handler a topic dispatches to, if any. */
  function HandlerFor(topic: string): (h: Option<Handler>)
    ensures h.Some? ==> TopicOf(h.value) == topic
  {
    if topic == "transaction_created" then Some(CreateTransaction)
    else if topic == "budget_updated" then Some(UpdateBudget)
    else if topic == "goal_progress_updated" then Some(UpdateGoal)
    else if topic == "notification_created" then Some(GetNotifications)
    else None
  }

  /** The table is a bijection between the four topics and the four
      handlers: every handler is reached from its own topic, and any other
      topic reaches nothing. */
  lemma HandlerTable(topic: string, h: Handler)
    ensures HandlerFor(TopicOf(h)) == Some(h)
    ensures HandlerFor(topic).None? <==>
              topic !in {"transaction_created", "budget_updated",
                         "goal_progress_updated", "notification_created"}
  {
    match h
    case CreateTransaction =>
    case UpdateBudget =>
      assert TopicOf(h) != "transaction_created";
    case UpdateGoal =>
      assert TopicOf(h) != "transaction_created";
      assert TopicOf(h) != "budget_updated";
    case GetNotifications =>
      assert TopicOf(h) != "transaction_created";
      assert TopicOf(h) != "budget_updated";
      assert TopicOf(h) != "goal_progress_updated";
  }

  // ---------------------------------------------------------------------
  // The per-delivery decision

  /** How one delivery is resolved. On a known topic an undecodable body
      and a handler error are both rejected without requeue; everything
      else is acknowledged. A topic outside the table runs no case of the
      `switch`, so its deliveries are acknowledged unread. */
  function Resolve(topic: string, d: Delivery): (r: Resolution)
    ensures r.tag == d.tag && !r.multiple
    ensures r.Nack? ==> !r.requeue
    ensures r.Nack? <==> HandlerFor(topic).Some? && (!d.decodes || d.outcome.HandlerError?)
  {
    if HandlerFor(topic).Some? && !d.decodes then Nack(d.tag, false, false)
    else if HandlerFor(topic).Some? && d.outcome.HandlerError? then Nack(d.tag, false, false)
    else Ack(d.tag, false)
  }

  /** The service calls one delivery causes: one, to the topic's handler,
      exactly when the topic is known and the body decodes. */
  function CallsFor(topic: string, d: Delivery): (calls: seq<Call>)
    ensures |calls| <= 1
    ensures calls != [] <==> HandlerFor(topic).Some? && d.decodes
    ensures calls != [] ==> calls[0] == Call(HandlerFor(topic).value, d.tag)
  {
    match HandlerFor(topic)
    case None => []
    case Some(h) => if d.decodes then [Call(h, d.tag)] else []
  }

  /** The resolutions sent for a sequence of handled deliveries. */
  function Resolutions(topic: string, ds: seq<Delivery>): seq<Resolution>
  {
    if ds == [] then []
    else Resolutions(topic, ds[..|ds| - 1]) + [Resolve(topic, ds[|ds| - 1])]
  }

  /** The service calls made for a sequence of handled deliveries. */
  function Calls(topic: string, ds: seq<Delivery>): seq<Call>
  {
    if ds == [] then []
    else Calls(topic, ds[..|ds| - 1]) + CallsFor(topic, ds[|ds| - 1])
  }

  /** The deliveries the consumer takes before the done signal. */
  function Received(events: seq<Event>): seq<Delivery>
  {
    if events == [] then []
    else
      match events[0]
      case ContextDone => []
      case Receive(d) => [d] + Received(events[1..])
  }

  // ---------------------------------------------------------------------
  // Properties of the decision

  /** Every delivery is resolved exactly once, in receive order: the k-th
      resolution is the k-th delivery's, and there is no other. */
  lemma {:induction false} ResolvedExactlyOnceInOrder(topic: string, ds: seq<Delivery>)
    ensures |Resolutions(topic, ds)| == |ds|
    ensures forall k :: 0 <= k < |ds| ==> Resolutions(topic, ds)[k] == Resolve(topic, ds[k])
  {
    if ds != [] {
      var init := ds[..|ds| - 1];
      ResolvedExactlyOnceInOrder(topic, init);
      assert forall k :: 0 <= k < |init| ==> init[k] == ds[k];
    }
  }

  /** No resolution covers several deliveries and none asks for a requeue:
      a rejected message is dropped. */
  lemma NeverRequeued(topic: string, ds: seq<Delivery>)
    ensures forall r :: r in Resolutions(topic, ds) ==> !r.multiple && (r.Nack? ==> !r.requeue)
  {
    ResolvedExactlyOnceInOrder(topic, ds);
  }

  /** Handling two runs of deliveries one after the other sends the
      resolutions of each run in turn. */
  lemma {:induction false} ResolutionsConcat(topic: string, a: seq<Delivery>, b: seq<Delivery>)
    ensures Resolutions(topic, a + b) == Resolutions(topic, a) + Resolutions(topic, b)
  {
    if b == [] {
      assert a + b == a;
    } else {
      var init, last := b[..|b| - 1], b[|b| - 1];
      assert a + b == (a + init) + [last];
      assert b == init + [last];
      HandlingSnoc(topic, a + init, last);
      HandlingSnoc(topic, init, last);
      ResolutionsConcat(topic, a, init);
      AppendAssoc(Resolutions(topic, a), Resolutions(topic, init), [Resolve(topic, last)]);
    }
  }

  /** ... and makes the calls of each run in turn. */
  lemma {:induction false} CallsConcat(topic: string, a: seq<Delivery>, b: seq<Delivery>)
    ensures Calls(topic, a + b) == Calls(topic, a) + Calls(topic, b)
  {
    if b == [] {
      assert a + b == a;
    } else {
      var init, last := b[..|b| - 1], b[|b| - 1];
      assert a + b == (a + init) + [last];
      assert b == init + [last];
      HandlingSnoc(topic, a + init, last);
      HandlingSnoc(topic, init, last);
      CallsConcat(topic, a, init);
      AppendAssoc(Calls(topic, a), Calls(topic, init), CallsFor(topic, last));
    }
  }

  /** Handling a single delivery. */
  lemma HandlingOne(topic: string, d: Delivery)
    ensures Resolutions(topic, [d]) == [Resolve(topic, d)]
    ensures Calls(topic, [d]) == CallsFor(topic, d)
  {
    assert [d][..0] == [];
  }

  /** Handling a run with one delivery singled out. */
  lemma HandlingAround(topic: string, before: seq<Delivery>, d: Delivery, after: seq<Delivery>)
    ensures Resolutions(topic, before + [d] + after)
            == Resolutions(topic, before) + [Resolve(topic, d)] + Resolutions(topic, after)
    ensures Calls(topic, before + [d] + after)
            == Calls(topic, before) + CallsFor(topic, d) + Calls(topic, after)
  {
    calc {
      Resolutions(topic, before + [d] + after);
      { ResolutionsConcat(topic, before + [d], after); }
      Resolutions(topic, before + [d]) + Resolutions(topic, after);
      { ResolutionsConcat(topic, before, [d]); HandlingOne(topic, d); }
      Resolutions(topic, before) + [Resolve(topic, d)] + Resolutions(topic, after);
    }
    calc {
      Calls(topic, before + [d] + after);
      { CallsConcat(topic, before + [d], after); }
      Calls(topic, before + [d]) + Calls(topic, after);
      { CallsConcat(topic, before, [d]); HandlingOne(topic, d); }
      Calls(topic, before) + CallsFor(topic, d) + Calls(topic, after);
    }
  }

  /** A body that does not decode is rejected without requeue and reaches
      no handler; the deliveries around it are handled as if it were not
      there. */
  lemma PoisonMessageSkipped(topic: string, before: seq<Delivery>, d: Delivery, after: seq<Delivery>)
    requires HandlerFor(topic).Some? && !d.decodes
    ensures Resolutions(topic, before + [d] + after)
            == Resolutions(topic, before) + [Nack(d.tag, false, false)] + Resolutions(topic, after)
    ensures Calls(topic, before + [d] + after) == Calls(topic, before) + Calls(topic, after)
  {
    HandlingAround(topic, before, d, after);
  }

  /** A handler error rejects the delivery without requeue; the handler was
      called, and the consumer goes on with the next delivery. */
  lemma HandlerErrorRejected(topic: string, before: seq<Delivery>, d: Delivery, after: seq<Delivery>)
    requires HandlerFor(topic).Some? && d.decodes && d.outcome.HandlerError?
    ensures Resolutions(topic, before + [d] + after)
            == Resolutions(topic, before) + [Nack(d.tag, false, false)] + Resolutions(topic, after)
    ensures Calls(topic, before + [d] + after)
            == Calls(topic, before) + [Call(HandlerFor(topic).value, d.tag)] + Calls(topic, after)
  {
    HandlingAround(topic, before, d, after);
  }

  /** A handler that returns a response, a nil one included, gets its
      delivery acknowledged. */
  lemma SuccessAcknowledged(topic: string, d: Delivery)
    requires d.decodes && d.outcome.Response?
    ensures Resolve(topic, d) == Ack(d.tag, false)
  {
  }

  /** A topic outside the table calls no handler and acknowledges every
      delivery, whatever its body. */
  lemma {:induction false} UnknownTopicAcknowledgesAll(topic: string, ds: seq<Delivery>)
    requires HandlerFor(topic).None?
    ensures Calls(topic, ds) == []
    ensures |Resolutions(topic, ds)| == |ds|
    ensures forall k :: 0 <= k < |ds| ==> Resolutions(topic, ds)[k] == Ack(ds[k].tag, false)
  {
    ResolvedExactlyOnceInOrder(topic, ds);
    if ds != [] {
      UnknownTopicAcknowledgesAll(topic, ds[..|ds| - 1]);
    }
  }

  /** Nothing after the done signal is taken. */
  lemma {:induction false} NothingAfterDone(before: seq<Event>, after: seq<Event>)
    requires ContextDone !in before
    ensures Received(before + [ContextDone] + after) == Received(before)
  {
    if before != [] {
      NothingAfterDone(before[1..], after);
      assert (before + [ContextDone] + after)[1..] == before[1..] + [ContextDone] + after;
    }
  }

  /** The deliveries taken are those before the first done signal. */
  lemma DoneAt(events: seq<Event>, i: nat)
    requires i < |events| && events[i] == ContextDone
    requires forall k :: 0 <= k < i ==> events[k].Receive?
    ensures Received(events) == Received(events[..i])
  {
    NothingAfterDone(events[..i], events[i + 1..]);
    assert events == events[..i] + [ContextDone] + events[i + 1..];
  }

  /** A delivery taken before any done signal is the next one received. */
  lemma ReceivedNext(events: seq<Event>, i: nat)
    requires i < |events| && events[i].Receive?
    requires forall k :: 0 <= k < i ==> events[k].Receive?
    ensures Received(events[..i + 1]) == Received(events[..i]) + [events[i].delivery]
  {
    assert events[..i + 1] == events[..i] + [Receive(events[i].delivery)];
    ReceivedSnoc(events[..i], events[i].delivery);
  }

  /** Taking one more event before the done signal adds its delivery. */
  lemma {:induction false} ReceivedSnoc(events: seq<Event>, d: Delivery)
    requires ContextDone !in events
    ensures Received(events + [Receive(d)]) == Received(events) + [d]
  {
    if events == [] {
      assert Received([Receive(d)]) == [d] + Received([]);
    } else {
      ReceivedSnoc(events[1..], d);
      assert (events + [Receive(d)])[1..] == events[1..] + [Receive(d)];
    }
  }

  /** Handling one more delivery adds its resolution and its calls. */
  lemma HandlingSnoc(topic: string, ds: seq<Delivery>, d: Delivery)
    ensures Resolutions(topic, ds + [d]) == Resolutions(topic, ds) + [Resolve(topic, d)]
    ensures Calls(topic, ds + [d]) == Calls(topic, ds) + CallsFor(topic, d)
  {
    assert (ds + [d])[..|ds|] == ds;
  }

  lemma AppendAssoc<T>(a: seq<T>, b: seq<T>, c: seq<T>)
    ensures a + (b + c) == a + b + c
  {
  }

  /** A reply of the document storages, seen as a handler outcome: a record
      and the empty `(nil, nil)` result are both responses. */
  function OutcomeOf<T>(reply: Reply<T>): (o: Outcome)
    ensures o.HandlerError? <==> reply.Failed?
    ensures o.Response? ==> (o.isNil <==> reply.Nil?)
  {
    match reply
    case Found(_) => Response(false)
    case Nil => Response(true)
    case Failed(_) => HandlerError
  }

  /** A goal update that finds nothing to change (or no such live goal)
      still has its message acknowledged. */
  lemma NilReplyAcknowledged(topic: string, tag: nat, decodes: bool)
    ensures Resolve(topic, Delivery(tag, decodes, OutcomeOf<GoalStorage.GoalResponse>(Nil))).Ack?
            <==> decodes || HandlerFor(topic).None?
  {
  }

  // ---------------------------------------------------------------------
  // The consumer

  /** `sync.WaitGroup`, reduced to its counter. */
  class WaitGroup {
    var counter: nat

    constructor (n: nat)
      ensures counter == n
    {
      counter := n;
    }

    /** `wg.Done()`: a counter that would go negative is a panic. */
    method Done()
      requires counter > 0
      modifies this
      ensures counter == old(counter) - 1
    {
      counter := counter - 1;
    }
  }

  /** The channel's acknowledger: the resolutions sent so far, in order. */
  class Acknowledger {
    var sent: seq<Resolution>

    constructor ()
      ensures sent == []
    {
      sent := [];
    }

    /** `Delivery.Ack(multiple)` */
    method Ack(tag: nat, multiple: bool)
      modifies this
      ensures sent == old(sent) + [Resolution.Ack(tag, multiple)]
    {
      sent := sent + [Resolution.Ack(tag, multiple)];
    }

    /** `Delivery.Nack(multiple, requeue)` */
    method Nack(tag: nat, multiple: bool, requeue: bool)
      modifies this
      ensures sent == old(sent) + [Resolution.Nack(tag, multiple, requeue)]
    {
      sent := sent + [Resolution.Nack(tag, multiple, requeue)];
    }
  }

  class MsgBroker {
    /** The wait group `StartToConsume` counts its consumers on. */
    const wg: WaitGroup
    /** The calls made into the service layer, in order. */
    var calls: seq<Call>

    constructor (wg: WaitGroup)
      ensures this.wg == wg && calls == []
    {
      this.wg := wg;
      calls := [];
    }

    /** `consumeMessages`: takes events until the done signal. Each
        delivery before it is resolved once, by `Resolve`, after calling
        the topic's handler when the body decodes; on the done signal the
        consumer signals the wait group once and returns. Without a done
        signal it is still waiting when the events run out, and has not
        signalled. */
    method ConsumeMessages(events: seq<Event>, ch: Acknowledger, logPrefix: string) returns (returned: bool)
      requires wg.counter > 0
      modifies this, wg, ch
      ensures returned <==> ContextDone in events
      ensures ch.sent == old(ch.sent) + Resolutions(logPrefix, Received(events))
      ensures calls == old(calls) + Calls(logPrefix, Received(events))
      ensures wg.counter == old(wg.counter) - (if returned then 1 else 0)
    {
      var i := 0;
      ghost var received: seq<Delivery> := [];
      while i < |events|
        invariant 0 <= i <= |events|
        invariant forall k :: 0 <= k < i ==> events[k].Receive?
        invariant received == Received(events[..i])
        invariant ch.sent == old(ch.sent) + Resolutions(logPrefix, received)
        invariant calls == old(calls) + Calls(logPrefix, received)
        invariant wg.counter == old(wg.counter)
      {
        match events[i] {
          case ContextDone =>
            DoneAt(events, i);
            wg.Done();
            return true;
          case Receive(val) =>
            HandleDelivery(val, ch, logPrefix);
            ReceivedNext(events, i);
            HandlingSnoc(logPrefix, received, val);
            AppendAssoc(old(ch.sent), Resolutions(logPrefix, received), [Resolve(logPrefix, val)]);
            AppendAssoc(old(calls), Calls(logPrefix, received), CallsFor(logPrefix, val));
            received := received + [val];
        }
        i := i + 1;
      }
      assert events[..i] == events;
      return false;
    }

    /** One pass of the loop for a delivery: the `switch` on the topic, the
        decode check, the handler call and the resolution. */
    method HandleDelivery(val: Delivery, ch: Acknowledger, logPrefix: string)
      modifies this, ch
      ensures ch.sent == old(ch.sent) + [Resolve(logPrefix, val)]
      ensures calls == old(calls) + CallsFor(logPrefix, val)
    {
      var failed := false;
      match HandlerFor(logPrefix) {
        case None =>
        case Some(handler) =>
          if !val.decodes {
            ch.Nack(val.tag, false, false);
            return;
          }
          calls := calls + [Call(handler, val.tag)];
          failed := val.outcome.HandlerError?;
      }
      if failed {
        ch.Nack(val.tag, false, false);
        return;
      }
      ch.Ack(val.tag, false);
    }
  }
}
