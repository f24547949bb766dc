/** The RabbitMQ polling node: a work queue, as the receiving dispatcher sees
    it, that pulls one message from the broker per `TryDequeue`. It keeps the
    set of message types bound to its endpoint, backs off through the shared
    sleeper when it has nothing to do, and rebuilds the endpoint's broker
    bindings when the broker reports the queue missing.

    The broker is an abstract outcome per pull; every broker call and every
    sleeper call is recorded, in order. */
module RabbitPolling {
  import opened Values

  /** A message pulled from the broker and not yet acknowledged. */
  datatype PendingMessage = PendingMessage(message: Message, deliveryTag: nat)

  /** What the broker client can throw: an OperationInterruptedException with
      the reply code of its shutdown reason, or any other exception. */
  datatype BrokerException = OperationInterrupted(replyCode: int) | OtherException(description: string)

  /** What one `TryStartMessage` on the endpoint does. */
  datatype PullOutcome = Delivered(pending: PendingMessage) | NothingWaiting | Raised(exception: BrokerException)

  /** A call on the broker client (`IMessagingBase`). */
  datatype BrokerCall =
    | ResetCaches
    | CreateDestination(source: TypeId, destination: string, routingKey: string, exchange: ExchangeType)
    | TryStartMessage(destination: string)

  /** How a pulled item is settled: acknowledged or returned to the broker. */
  datatype Settlement = Finished(message: PendingMessage) | Cancelled(message: PendingMessage)

  /** `Enqueue` on a queue that only fills itself. */
  datatype QueueError = EnqueueNotSupported

  /** The item `TryDequeue` hands to the dispatcher: empty, or a pulled message
      whose finish and cancel actions are the message's own Finish and Cancel. */
  datatype WorkQueueItem = NoItem | HasItem(message: PendingMessage)
  {
    /** The finish action of the item. */
    function Finish(): (s: Option<Settlement>)
      ensures HasItem? <==> s.Some?
      ensures HasItem? ==> s.value == Finished(message)
    {
      if HasItem? then Some(Finished(message)) else None
    }

    /** The cancel action of the item. */
    function Cancel(): (s: Option<Settlement>)
      ensures HasItem? <==> s.Some?
      ensures HasItem? ==> s.value == Cancelled(message)
    {
      if HasItem? then Some(Cancelled(message)) else None
    }
  }

  /** AMQP reply code 404 (NOT_FOUND): the endpoint's queue is missing. */
  const ReplyCodeNotFound: int := 404

  /** AMQP reply code 406 (PRECONDITION_FAILED): the message cannot be acknowledged. */
  const ReplyCodePreconditionFailed: int := 406

  /** `IsMissingQueue`: an interrupted operation whose reply code is 404; it
      never holds together with `DoubleAck`, so the order of the two tests in
      `EnsureQueuesAndPollForMessage` does not matter. */
  predicate IsMissingQueue(e: BrokerException)
    ensures IsMissingQueue(e) ==> e.OperationInterrupted? && !DoubleAck(e)
  {
    e.OperationInterrupted? && e.replyCode == ReplyCodeNotFound
  }

  /** `DoubleAck`: an interrupted operation whose reply code is 406. */
  predicate DoubleAck(e: BrokerException)
    ensures DoubleAck(e) ==> e.OperationInterrupted? && e.replyCode != ReplyCodeNotFound
  {
    e.OperationInterrupted? && e.replyCode == ReplyCodePreconditionFailed
  }

  /** `order` lists each element of `s` exactly once. */
  ghost predicate Enumerates(order: seq<TypeId>, s: set<TypeId>)
  {
    Distinct(order) && forall t :: t in order <==> t in s
  }

  /** One `CreateDestination` per type of `order`, into this endpoint, under its
      routing key, as a topic binding. */
  function CreateCalls(order: seq<TypeId>, endpoint: string, routingKey: string): seq<BrokerCall>
  {
    seq(|order|, i requires 0 <= i < |order| => CreateDestination(order[i], endpoint, routingKey, Topic))
  }

  /** The broker calls of one rebuild: reset the caches, then create a
      destination for every bound type, in some order. */
  ghost predicate IsRebuild(calls: seq<BrokerCall>, bound: set<TypeId>, endpoint: string, routingKey: string)
  {
    exists order :: Enumerates(order, bound) && calls == [ResetCaches] + CreateCalls(order, endpoint, routingKey)
  }

  lemma {:induction false} DistinctLength(order: seq<TypeId>, s: set<TypeId>)
    requires Enumerates(order, s)
    ensures |order| == |s|
    decreases |order|
  {
    if order != [] {
      var last := order[|order| - 1];
      var init := order[..|order| - 1];
      assert order == init + [last];
      assert Enumerates(init, s - {last}) by {
        forall t ensures t in init <==> t in s - {last} {
          if t in init {
            var i :| 0 <= i < |init| && init[i] == t;
            assert order[i] == t && order[|order| - 1] == last;
          }
        }
      }
      DistinctLength(init, s - {last});
    }
  }

  /** `c` binds one of `bound` to this endpoint, under its routing key, as a topic. */
  predicate IsCreation(c: BrokerCall, bound: set<TypeId>, endpoint: string, routingKey: string)
  {
    c.CreateDestination? && c == CreateDestination(c.source, endpoint, routingKey, Topic) && c.source in bound
  }

  /** The calls of a rebuild are its reset followed by one creation per type. */
  lemma RebuildMembers(calls: seq<BrokerCall>, bound: set<TypeId>, endpoint: string, routingKey: string)
    requires IsRebuild(calls, bound, endpoint, routingKey)
    ensures |calls| == |bound| + 1
    ensures Distinct(calls)
    ensures forall c :: c in calls <==> c == ResetCaches || IsCreation(c, bound, endpoint, routingKey)
  {
    var order :| Enumerates(order, bound) && calls == [ResetCaches] + CreateCalls(order, endpoint, routingKey);
    DistinctLength(order, bound);
    forall c | IsCreation(c, bound, endpoint, routingKey)
      ensures c in calls
    {
      var j :| 0 <= j < |order| && order[j] == c.source;
      assert calls[j + 1] == c;
    }
  }

  /** Rebuilding is idempotent on the broker: any two rebuilds over the same
      bound types make the same calls, each once, in possibly different order. */
  lemma RebuildsCreateSameDestinations(calls1: seq<BrokerCall>, calls2: seq<BrokerCall>, bound: set<TypeId>, endpoint: string, routingKey: string)
    requires IsRebuild(calls1, bound, endpoint, routingKey)
    requires IsRebuild(calls2, bound, endpoint, routingKey)
    ensures |calls1| == |calls2| == |bound| + 1
    ensures forall c :: c in calls1 <==> c in calls2
    ensures Distinct(calls1) && Distinct(calls2)
  {
    RebuildMembers(calls1, bound, endpoint, routingKey);
    RebuildMembers(calls2, bound, endpoint, routingKey);
  }

  class RabbitMqPollingNode {
    const endpoint: string
    const routingKey: string
    var boundMessageTypes: set<TypeId>
    var brokerCalls: seq<BrokerCall>
    var sleeperCalls: seq<SleeperCall>

    /** A node for `endpoint` and `routingKey`, with no bound types. */
    constructor (endpoint: string, routingKey: string)
      ensures this.endpoint == endpoint && this.routingKey == routingKey
      ensures boundMessageTypes == {} && brokerCalls == [] && sleeperCalls == []
    {
      this.endpoint := endpoint;
      this.routingKey := routingKey;
      boundMessageTypes := {};
      brokerCalls := [];
      sleeperCalls := [];
    }

    /** `Enqueue`: direct injection is not supported and always throws. */
    function Enqueue(work: PendingMessage): (r: Outcome<QueueError>)
      ensures r == Fail(EnqueueNotSupported)
    {
      Fail(EnqueueNotSupported)
    }

    /** `Length`: 0, the "unknown" snapshot length. */
    function Length(): (n: int)
      ensures n == 0
    {
      0
    }

    /** `BlockUntilReady`: there is never anything to wait for. */
    predicate BlockUntilReady()
      ensures BlockUntilReady()
    {
      true
    }

    /** `TryDequeue`: the item for the message `SleepingGetMessage` returns; a
        broker error it lets through propagates. */
    method TryDequeue(pull: PullOutcome) returns (r: Result<WorkQueueItem, BrokerException>)
      modifies this`brokerCalls, this`sleeperCalls
      ensures boundMessageTypes == {} ==>
        r == Ok(NoItem) && brokerCalls == old(brokerCalls) && sleeperCalls == old(sleeperCalls) + [SleepMore]
      ensures boundMessageTypes != {} ==> PollStep(pull, r, old(brokerCalls), old(sleeperCalls))
    {
      var msg := SleepingGetMessage(pull);
      match msg {
        case Err(e) => r := Err(e);
        case Ok(None) => r := Ok(NoItem);
        case Ok(Some(m)) => r := Ok(HasItem(m));
      }
    }

    /** What one poll of a node with bound types does, given the pull's outcome:
        a delivered message resets the sleeper and is returned; nothing waiting
        backs off; a missing queue rebuilds every binding and backs off; a
        non-acknowledgable message backs off; any other error propagates without
        touching the sleeper. */
    ghost predicate PollStep(pull: PullOutcome, r: Result<WorkQueueItem, BrokerException>,
                             calls0: seq<BrokerCall>, sleeps0: seq<SleeperCall>)
      reads this
    {
      |brokerCalls| > |calls0| &&
      brokerCalls[..|calls0| + 1] == calls0 + [TryStartMessage(endpoint)] &&
      match pull
      case Delivered(m) =>
        r == Ok(HasItem(m)) && brokerCalls == calls0 + [TryStartMessage(endpoint)] && sleeperCalls == sleeps0 + [Reset]
      case NothingWaiting =>
        r == Ok(NoItem) && brokerCalls == calls0 + [TryStartMessage(endpoint)] && sleeperCalls == sleeps0 + [SleepMore]
      case Raised(e) =>
        if IsMissingQueue(e) then
          r == Ok(NoItem) && sleeperCalls == sleeps0 + [SleepMore] &&
          IsRebuild(brokerCalls[|calls0| + 1..], boundMessageTypes, endpoint, routingKey)
        else if DoubleAck(e) then
          r == Ok(NoItem) && brokerCalls == calls0 + [TryStartMessage(endpoint)] && sleeperCalls == sleeps0 + [SleepMore]
        else
          r == Err(e) && brokerCalls == calls0 + [TryStartMessage(endpoint)] && sleeperCalls == sleeps0
    }

    /** `SleepingGetMessage`: with no bound types, back off without asking the
        broker; otherwise poll once, resetting the sleeper on a message and
        backing off on none. */
    method SleepingGetMessage(pull: PullOutcome) returns (r: Result<Option<PendingMessage>, BrokerException>)
      modifies this`brokerCalls, this`sleeperCalls
      ensures boundMessageTypes == {} ==>
        r == Ok(None) && brokerCalls == old(brokerCalls) && sleeperCalls == old(sleeperCalls) + [SleepMore]
      ensures boundMessageTypes != {} ==>
        PollStep(pull, match r case Err(e) => Err(e) case Ok(None) => Ok(NoItem) case Ok(Some(m)) => Ok(HasItem(m)),
                 old(brokerCalls), old(sleeperCalls))
    {
      if |boundMessageTypes| < 1 {
        sleeperCalls := sleeperCalls + [SleepMore];
        return Ok(None);
      }
      r := EnsureQueuesAndPollForMessage(pull);
      if r.Ok? {
        if r.value.Some? {
          sleeperCalls := sleeperCalls + [Reset];
        } else {
          sleeperCalls := sleeperCalls + [SleepMore];
        }
      }
    }

    /** `EnsureQueuesAndPollForMessage`: one pull; reply code 404 rebuilds the
        bindings and 406 is logged, both yielding no message; any other error
        is rethrown. */
    method EnsureQueuesAndPollForMessage(pull: PullOutcome) returns (r: Result<Option<PendingMessage>, BrokerException>)
      modifies this`brokerCalls
      ensures |brokerCalls| > |old(brokerCalls)|
      ensures brokerCalls[..|old(brokerCalls)| + 1] == old(brokerCalls) + [TryStartMessage(endpoint)]
      ensures match pull
        case Delivered(m) => r == Ok(Some(m)) && brokerCalls == old(brokerCalls) + [TryStartMessage(endpoint)]
        case NothingWaiting => r == Ok(None) && brokerCalls == old(brokerCalls) + [TryStartMessage(endpoint)]
        case Raised(e) =>
          if IsMissingQueue(e) then
            r == Ok(None) && IsRebuild(brokerCalls[|old(brokerCalls)| + 1..], boundMessageTypes, endpoint, routingKey)
          else if DoubleAck(e) then
            r == Ok(None) && brokerCalls == old(brokerCalls) + [TryStartMessage(endpoint)]
          else
            r == Err(e) && brokerCalls == old(brokerCalls) + [TryStartMessage(endpoint)]
    {
      brokerCalls := brokerCalls + [TryStartMessage(endpoint)];
      match pull {
        case Delivered(m) => r := Ok(Some(m));
        case NothingWaiting => r := Ok(None);
        case Raised(e) =>
          if IsMissingQueue(e) {
            ghost var before := brokerCalls;
            TryRebuildQueues();
            assert brokerCalls[|before|..] == brokerCalls[|old(brokerCalls)| + 1..];
            r := Ok(None);
          } else if DoubleAck(e) {
            r := Ok(None);
          } else {
            r := Err(e);
          }
      }
    }

    /** `AddMessageType`: binds the type (a set, so no duplicates), then
        rebuilds every binding of the endpoint. */
    method AddMessageType(t: TypeId)
      modifies this`boundMessageTypes, this`brokerCalls
      ensures boundMessageTypes == old(boundMessageTypes) + {t}
      ensures |brokerCalls| >= |old(brokerCalls)|
      ensures brokerCalls[..|old(brokerCalls)|] == old(brokerCalls)
      ensures IsRebuild(brokerCalls[|old(brokerCalls)|..], boundMessageTypes, endpoint, routingKey)
    {
      boundMessageTypes := boundMessageTypes + {t};
      TryRebuildQueues();
    }

    /** `Stop`: unbinds every type, so later polls idle. */
    method Stop()
      modifies this`boundMessageTypes
      ensures boundMessageTypes == {}
    {
      boundMessageTypes := {};
    }

    /** `TryRebuildQueues`: reset the broker's caches, then create a topic
        binding from every bound type to this endpoint under its routing key. */
    method TryRebuildQueues()
      modifies this`brokerCalls
      ensures |brokerCalls| >= |old(brokerCalls)|
      ensures brokerCalls[..|old(brokerCalls)|] == old(brokerCalls)
      ensures IsRebuild(brokerCalls[|old(brokerCalls)|..], boundMessageTypes, endpoint, routingKey)
    {
      brokerCalls := brokerCalls + [ResetCaches];
      var remaining := boundMessageTypes;
      ghost var order: seq<TypeId> := [];
      while remaining != {}
        invariant remaining <= boundMessageTypes
        invariant Enumerates(order, boundMessageTypes - remaining)
        invariant brokerCalls == old(brokerCalls) + [ResetCaches] + CreateCalls(order, endpoint, routingKey)
        decreases remaining
      {
        var source :| source in remaining;
        brokerCalls := brokerCalls + [CreateDestination(source, endpoint, routingKey, Topic)];
        assert CreateCalls(order + [source], endpoint, routingKey) == CreateCalls(order, endpoint, routingKey) + [CreateDestination(source, endpoint, routingKey, Topic)];
        order := order + [source];
        remaining := remaining - {source};
      }
      assert brokerCalls[|old(brokerCalls)|..] == [ResetCaches] + CreateCalls(order, endpoint, routingKey);
    }
  }
}
