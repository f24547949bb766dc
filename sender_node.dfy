/** The broker-side sender node. `SendMessage` prepares a message for the topic
    exchange and adds its bytes to a persistent work queue; a dispatcher with a
    single worker takes the queue's head, sends it, and on failure backs off and
    returns the item to the queue. `Dispose` detaches the dispatcher and the
    queue, each at most once.

    The dispatcher, the persistent queue, the broker and the sleeper are
    collaborators: the queue is a FIFO sequence of prepared payloads, the
    broker's answer to each send is a parameter, and the other calls are
    recorded in order. */
module MessageSending {
  import opened Values

  /** A message prepared for sending: the message, its routing key and the
      exchange type (serialisation to bytes and back is the identity here). */
  datatype Payload = Payload(message: Message, routingKey: string, exchange: ExchangeType)

  /** Calling into a detached (null) dispatcher. */
  datatype SenderError = NullReference

  /** What the broker did with one `SendPrepared`. */
  datatype SendFailure = SendFailure(description: string)

  /** A call on the sending dispatcher. */
  datatype DispatcherCall =
    | SetMaximumInflight(max: int)
    | AddConsumer
    | SubscribeExceptions
    | Start
    | WaitForEmptyQueueAndStop

  /** How the dispatcher settled a work item. */
  datatype WorkSettlement = Finished(payload: Payload) | Cancelled(payload: Payload)

  /** The dispatcher runs one send at a time. */
  const SingleThreaded: int := 1

  /** `PrepareForSend(message, routingKey, ExchangeType.Topic)`. */
  function Prepare(m: Message, routingKey: string): (p: Payload)
    ensures p.message == m && p.routingKey == routingKey && p.exchange == Topic
  {
    Payload(m, routingKey, Topic)
  }

  class SenderNode {
    /** `_sendingDispatcher != null`. */
    var dispatcherAttached: bool
    /** `_persistentQueue != null`. */
    var queueAttached: bool
    /** The dispatcher's maximum number of in-flight items. */
    var maxInflight: int
    /** Payloads waiting in the persistent queue, head first. */
    var pending: seq<Payload>
    /** Payloads the broker accepted, in order. */
    var delivered: seq<Payload>
    /** Every payload ever queued, in order. */
    ghost var accepted: seq<Payload>
    var sleeperCalls: seq<SleeperCall>
    /** Messages whose sent hooks fired, in order. */
    var sentHooks: seq<Message>
    var settlements: seq<WorkSettlement>
    var dispatcherCalls: seq<DispatcherCall>
    /** How often the persistent queue was disposed. */
    var queueDisposals: nat
    /** How often the outgoing queue factory's `Cleanup` ran. */
    var cleanups: nat

    /** The queue is FIFO and loses nothing: what was delivered, followed by
        what is pending, is everything accepted. The dispatcher is drained and
        the queue disposed at most once, exactly when detached. */
    ghost predicate Valid()
      reads this
    {
      delivered + pending == accepted &&
      maxInflight == SingleThreaded &&
      (if dispatcherAttached then WaitForEmptyQueueAndStop !in dispatcherCalls
       else multiset(dispatcherCalls)[WaitForEmptyQueueAndStop] == 1) &&
      queueDisposals == (if queueAttached then 0 else 1)
    }

    /** A new sender over a persistent queue that already holds `stored`: the
        dispatcher is limited to one in-flight item, given its consumer and
        exception handler, and started. */
    constructor (stored: seq<Payload>)
      ensures Valid()
      ensures dispatcherAttached && queueAttached
      ensures maxInflight == SingleThreaded
      ensures pending == stored && accepted == stored && delivered == []
      ensures dispatcherCalls == [SetMaximumInflight(SingleThreaded), AddConsumer, SubscribeExceptions, Start]
      ensures sleeperCalls == [] && sentHooks == [] && settlements == []
      ensures queueDisposals == 0 && cleanups == 0
    {
      dispatcherAttached := true;
      queueAttached := true;
      pending := stored;
      accepted := stored;
      delivered := [];
      sleeperCalls := [];
      sentHooks := [];
      settlements := [];
      queueDisposals := 0;
      cleanups := 0;
      maxInflight := SingleThreaded;
      dispatcherCalls := [SetMaximumInflight(SingleThreaded), AddConsumer, SubscribeExceptions, Start];
    }

    /** `SendMessage(message, routingKey = "")`: queues the prepared payload
        behind everything already queued, then fires the sent hooks. After
        `Dispose` the dispatcher is null and the call fails before either. */
    method SendMessage(m: Message, routingKey: string := DefaultRoutingKey) returns (r: Outcome<SenderError>)
      requires Valid()
      modifies this`pending, this`accepted, this`sentHooks
      ensures Valid()
      ensures r.Pass? <==> dispatcherAttached
      ensures r.Pass? ==> pending == old(pending) + [Prepare(m, routingKey)] &&
                          accepted == old(accepted) + [Prepare(m, routingKey)] &&
                          sentHooks == old(sentHooks) + [m]
      ensures r.Fail? ==> r.error == NullReference && pending == old(pending) &&
                          accepted == old(accepted) && sentHooks == old(sentHooks)
    {
      var prepared := Prepare(m, routingKey);
      if !dispatcherAttached {
        return Fail(NullReference);
      }
      pending := pending + [prepared];
      accepted := accepted + [prepared];
      sentHooks := sentHooks + [m];
      r := Pass;
    }

    /** `SendWaitingMessage`: sends the payload; the sleeper is reset only when
        the broker took it (`outcome` is the broker's answer), and a failure
        propagates to the dispatcher. */
    method SendWaitingMessage(p: Payload, outcome: Outcome<SendFailure>) returns (r: Outcome<SendFailure>)
      modifies this`delivered, this`sleeperCalls
      ensures r == outcome
      ensures outcome.Pass? ==> delivered == old(delivered) + [p] && sleeperCalls == old(sleeperCalls) + [Reset]
      ensures outcome.Fail? ==> delivered == old(delivered) && sleeperCalls == old(sleeperCalls)
    {
      if outcome.Fail? {
        return outcome;
      }
      delivered := delivered + [p];
      sleeperCalls := sleeperCalls + [Reset];
      r := Pass;
    }

    /** `SendingExceptions`: backs off and cancels the failed work item. */
    method SendingExceptions(item: Payload)
      modifies this`sleeperCalls, this`settlements
      ensures sleeperCalls == old(sleeperCalls) + [SleepMore]
      ensures settlements == old(settlements) + [Cancelled(item)]
    {
      sleeperCalls := sleeperCalls + [SleepMore];
      settlements := settlements + [Cancelled(item)];
    }

    /** One step of the single-worker dispatcher: the queue's head is sent; on
        success it is finished and leaves the queue, on failure the exception
        handler runs and the cancelled item stays at the head. */
    method DispatchNext(outcome: Outcome<SendFailure>)
      requires Valid()
      requires dispatcherAttached && pending != []
      modifies this`pending, this`delivered, this`sleeperCalls, this`settlements
      ensures Valid()
      ensures outcome.Pass? ==>
        delivered == old(delivered) + [old(pending)[0]] && pending == old(pending)[1..] &&
        sleeperCalls == old(sleeperCalls) + [Reset] && settlements == old(settlements) + [Finished(old(pending)[0])]
      ensures outcome.Fail? ==>
        delivered == old(delivered) && pending == old(pending) &&
        sleeperCalls == old(sleeperCalls) + [SleepMore] && settlements == old(settlements) + [Cancelled(old(pending)[0])]
    {
      var item := pending[0];
      var r := SendWaitingMessage(item, outcome);
      if r.Pass? {
        assert delivered + pending[1..] == old(delivered) + [item] + pending[1..];
        assert [item] + pending[1..] == pending;
        pending := pending[1..];
        settlements := settlements + [Finished(item)];
      } else {
        SendingExceptions(item);
      }
    }

    /** `Dispose`: swaps the dispatcher out and, if it was still there, waits
        for its queue to empty and stops it; swaps the queue out and, if it was
        still there, disposes it; always runs the queue factory's `Cleanup`. */
    method Dispose()
      requires Valid()
      modifies this`dispatcherAttached, this`queueAttached, this`dispatcherCalls, this`queueDisposals, this`cleanups
      ensures Valid()
      ensures !dispatcherAttached && !queueAttached
      ensures dispatcherCalls == old(dispatcherCalls) + if old(dispatcherAttached) then [WaitForEmptyQueueAndStop] else []
      ensures queueDisposals == old(queueDisposals) + if old(queueAttached) then 1 else 0
      ensures cleanups == old(cleanups) + 1
    {
      var hadDispatcher := dispatcherAttached;
      dispatcherAttached := false;
      if hadDispatcher {
        dispatcherCalls := dispatcherCalls + [WaitForEmptyQueueAndStop];
      }
      var hadQueue := queueAttached;
      queueAttached := false;
      if hadQueue {
        queueDisposals := queueDisposals + 1;
      }
      cleanups := cleanups + 1;
    }
  }
}
