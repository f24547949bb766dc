/** The broker-side receiving registry. A `Receiver` creates `ReceiverNode`s,
    one per `TakeFrom`/`Listen`, and keeps them in a list so that `Shutdown`
    can dispose them all. Each node owns a polling node and a dispatcher and
    forwards bindings to them and to a handler manager; those collaborators are
    not modelled here, only the ordered calls the node makes on them. */
module MessageReceiving {
  import opened Values
  import opened Text

  /** A routing endpoint (a queue name), compared by value. */
  datatype Endpoint = Endpoint(name: string)

  /** One binding: (message type, handler type). */
  type Binding = (TypeId, TypeId)

  /** The root message interface every message type implements. */
  const IMessage: TypeId := TypeId("IMessage")

  /** Prefix of the name of a receiving worker pool. */
  const WorkerPoolPrefix: string := "SDMessaging_Receiver_"

  /** A call a receiver node makes on its polling node, dispatcher, handler
      manager or parent receiver. */
  datatype NodeCall =
    | CreatePollingNode(endpoint: string, routingKey: string)
    | CreateDispatcher(workerPool: string)
    | AddConsumer
    | PollAddMessageType(msgType: TypeId)
    | AddHandler(msgType: TypeId, handlerType: TypeId)
    | StartDispatcher
    | StopPolling
    | GetMatchingHandlers(msgType: TypeId)
    | RemoveHandler(handlerType: TypeId)
    | StopDispatcher
    | TryHandle(message: Message)
    | RemoveFromParent

  /** A call the receiver makes on the message router. */
  datatype RouterCall = AddDestination(name: string) | Purge(name: string) | RemoveRouting

  /** The calls a node makes while it is constructed. */
  function SetupCalls(endpoint: Endpoint, routingKey: string): seq<NodeCall>
  {
    [CreatePollingNode(endpoint.name, routingKey), CreateDispatcher(WorkerPoolPrefix + endpoint.name), AddConsumer]
  }

  /** The calls of `Register` for each binding, in order: bind the message type
      on the polling node, then add the handler. */
  function BindingCalls(bindings: seq<Binding>): seq<NodeCall>
  {
    if bindings == [] then []
    else
      var b := bindings[|bindings| - 1];
      BindingCalls(bindings[..|bindings| - 1]) + [PollAddMessageType(b.0), AddHandler(b.0, b.1)]
  }

  /** All calls of `Register`: the per-binding calls, then a dispatcher start
      when there was at least one binding. */
  function RegisterCalls(bindings: seq<Binding>): seq<NodeCall>
  {
    BindingCalls(bindings) + if bindings == [] then [] else [StartDispatcher]
  }

  /** The binding calls come in pairs, one pair per binding and in binding order. */
  lemma {:induction false} BindingCallsInOrder(bindings: seq<Binding>)
    ensures |BindingCalls(bindings)| == 2 * |bindings|
    ensures forall i :: 0 <= i < |bindings| ==>
      BindingCalls(bindings)[2 * i] == PollAddMessageType(bindings[i].0) &&
      BindingCalls(bindings)[2 * i + 1] == AddHandler(bindings[i].0, bindings[i].1)
    decreases |bindings|
  {
    if bindings != [] {
      BindingCallsInOrder(bindings[..|bindings| - 1]);
    }
  }

  /** `Register` starts the dispatcher, once, exactly when there are bindings,
      and only after every binding has been forwarded. */
  lemma RegisterStartsIffBound(bindings: seq<Binding>)
    ensures StartDispatcher in RegisterCalls(bindings) <==> bindings != []
    ensures bindings != [] ==> RegisterCalls(bindings) == BindingCalls(bindings) + [StartDispatcher]
    ensures StartDispatcher !in BindingCalls(bindings)
  {
    BindingCallsInOrder(bindings);
    var calls := BindingCalls(bindings);
    forall k | 0 <= k < |calls| ensures calls[k] != StartDispatcher {
      assert k == 2 * (k / 2) || k == 2 * (k / 2) + 1;
    }
  }

  /** The handler removals of `Dispose`, one per matching handler, in order. */
  function RemoveCalls(handlers: seq<TypeId>): seq<NodeCall>
  {
    seq(|handlers|, i requires 0 <= i < |handlers| => RemoveHandler(handlers[i]))
  }

  /** All calls of `Dispose`: stop polling, remove every handler the handler
      manager reports for `IMessage`, stop the dispatcher, then leave the
      parent's registry. */
  function DisposeCalls(handlers: seq<TypeId>): seq<NodeCall>
  {
    [StopPolling, GetMatchingHandlers(IMessage)] + RemoveCalls(handlers) + [StopDispatcher, RemoveFromParent]
  }

  /** `Dispose` stops polling before touching any handler, stops the
      dispatcher only after every handler is removed, and leaves the parent
      last of all. */
  lemma DisposeOrder(handlers: seq<TypeId>)
    ensures DisposeCalls(handlers)[0] == StopPolling
    ensures DisposeCalls(handlers)[|DisposeCalls(handlers)| - 1] == RemoveFromParent
    ensures DisposeCalls(handlers)[|DisposeCalls(handlers)| - 2] == StopDispatcher
    ensures forall h :: RemoveHandler(h) in DisposeCalls(handlers) <==> h in handlers
    ensures StopDispatcher !in DisposeCalls(handlers)[..|DisposeCalls(handlers)| - 2]
    ensures RemoveFromParent !in DisposeCalls(handlers)[..|DisposeCalls(handlers)| - 1]
  {
    var calls := DisposeCalls(handlers);
    forall h | h in handlers ensures RemoveHandler(h) in calls {
      var i :| 0 <= i < |handlers| && handlers[i] == h;
      assert calls[i + 2] == RemoveHandler(h);
    }
  }

  /** `ReceiverNode.Equals`: the same object, or a node on an equal endpoint
      with an ordinally equal routing key. */
  predicate SameNode(a: ReceiverNode, b: ReceiverNode)
    ensures SameNode(a, b) <==> a.endpoint == b.endpoint && a.routingKey == b.routingKey
  {
    a == b || (a.endpoint == b.endpoint && a.routingKey == b.routingKey)
  }

  /** `ReceiverNode.GetHashCode`: `unchecked((endpointHash * 397) ^ routingKeyHash)`;
      the endpoint and string hashes are the runtime's and are given. */
  function NodeHash(n: ReceiverNode, endpointHash: Endpoint -> bv32, stringHash: string -> bv32): bv32
  {
    CombineHashes(endpointHash(n.endpoint), stringHash(n.routingKey))
  }

  /** Equal nodes hash alike. */
  lemma SameNodesHashAlike(a: ReceiverNode, b: ReceiverNode, endpointHash: Endpoint -> bv32, stringHash: string -> bv32)
    requires SameNode(a, b)
    ensures NodeHash(a, endpointHash, stringHash) == NodeHash(b, endpointHash, stringHash)
  {
  }

  /** The registry after `Remove(node)`: the nodes not equal to `node`, in order. */
  function Kept(nodes: seq<ReceiverNode>, node: ReceiverNode): (r: seq<ReceiverNode>)
    ensures |r| <= |nodes|
    ensures forall i :: 0 <= i < |r| ==> r[i] in nodes && !SameNode(r[i], node)
    ensures forall i :: 0 <= i < |nodes| && !SameNode(nodes[i], node) ==> nodes[i] in r
  {
    if nodes == [] then []
    else
      var last := nodes[|nodes| - 1];
      Kept(nodes[..|nodes| - 1], node) + if SameNode(last, node) then [] else [last]
  }

  /** Disposing one of two equal nodes (same endpoint and routing key) drops
      both from the registry, so a later `Shutdown` never disposes the other. */
  lemma RemovingEqualNodeDropsTwin(nodes: seq<ReceiverNode>, a: ReceiverNode, b: ReceiverNode)
    requires a.endpoint == b.endpoint && a.routingKey == b.routingKey
    ensures b !in Kept(nodes, a)
  {
  }

  /** Filtering keeps a registry free of duplicates. */
  lemma {:induction false} KeptDistinct(nodes: seq<ReceiverNode>, node: ReceiverNode)
    requires Distinct(nodes)
    ensures Distinct(Kept(nodes, node))
    decreases |nodes|
  {
    if nodes != [] {
      var init := nodes[..|nodes| - 1];
      assert Distinct(init) by {
        forall i, j | 0 <= i < j < |init| ensures init[i] != init[j] {
          assert init[i] == nodes[i] && init[j] == nodes[j];
        }
      }
      KeptDistinct(init, node);
      var last := nodes[|nodes| - 1];
      assert last !in init by {
        forall i | 0 <= i < |init| ensures init[i] != last {
          assert init[i] == nodes[i];
        }
      }
    }
  }

  /** `DeleteNameFilter`: a queue is an integration endpoint when its lower-cased
      name contains ".integration.", ends with "sevendigital.messaging_listener"
      or starts with "test_listener_". The infix test lower-cases the name a
      second time, as the source does. */
  function DeleteNameFilter(queueName: string): (delete: bool)
    ensures delete <==>
      (exists i :: OccursAt(Lower(queueName), ".integration.", i)) ||
      EndsWith(Lower(queueName), "sevendigital.messaging_listener") ||
      StartsWith(Lower(queueName), "test_listener_")
  {
    var name := Lower(queueName);
    LowerIdempotent(queueName);
    ContainsIff(Lower(name), ".integration.");
    Contains(Lower(name), ".integration.") ||
    EndsWith(name, "sevendigital.messaging_listener") ||
    StartsWith(name, "test_listener_")
  }

  /** The filter ignores case: names that lower-case alike are filtered alike,
      and in particular a name and its lower-cased form. */
  lemma DeleteNameFilterIgnoresCase(a: string, b: string)
    requires Lower(a) == Lower(b)
    ensures DeleteNameFilter(a) == DeleteNameFilter(b)
    ensures DeleteNameFilter(Lower(a)) == DeleteNameFilter(a)
  {
    LowerIdempotent(a);
  }

  /** The bindings a binding action leaves: none when the action is null. */
  function BindingsOf(bindings: Option<seq<Binding>>): (r: seq<Binding>)
    ensures bindings.None? ==> r == []
    ensures bindings.Some? ==> r == bindings.value
  {
    match bindings
    case None => []
    case Some(b) => b
  }

  /** The router calls of a purge: declare the endpoint's queue, then purge it. */
  function PurgeCalls(purge: bool, endpoint: Endpoint): seq<RouterCall>
  {
    if purge then [AddDestination(endpoint.name), Purge(endpoint.name)] else []
  }

  class ReceiverNode {
    const parent: Receiver
    const endpoint: Endpoint
    const routingKey: string
    /** The receiving dispatcher's maximum number of in-flight messages. */
    var maxInflight: int
    /** Calls on the polling node, dispatcher and handler manager, in order. */
    var calls: seq<NodeCall>

    /** Creates the polling node and the dispatcher for the endpoint, attaches
        the incoming-message consumer, and sets the system concurrency. */
    constructor (parent: Receiver, endpoint: Endpoint, routingKey: string, concurrency: int)
      ensures this.parent == parent && this.endpoint == endpoint && this.routingKey == routingKey
      ensures maxInflight == concurrency
      ensures calls == SetupCalls(endpoint, routingKey)
    {
      this.parent := parent;
      this.endpoint := endpoint;
      this.routingKey := routingKey;
      maxInflight := concurrency;
      calls := SetupCalls(endpoint, routingKey);
    }

    /** `DestinationName`: the endpoint's queue name. */
    function DestinationName(): (name: string)
      ensures name == endpoint.name
    {
      endpoint.name
    }

    /** `Register`: forwards each binding to the polling node and the handler
        manager, and starts the dispatcher if there was any binding. */
    method Register(bindings: seq<Binding>)
      modifies this`calls
      ensures calls == old(calls) + RegisterCalls(bindings)
    {
      var shouldStart := false;
      var i := 0;
      while i < |bindings|
        invariant 0 <= i <= |bindings|
        invariant shouldStart <==> i > 0
        invariant calls == old(calls) + BindingCalls(bindings[..i])
      {
        shouldStart := true;
        var (messageType, handlerType) := bindings[i];
        calls := calls + [PollAddMessageType(messageType), AddHandler(messageType, handlerType)];
        assert bindings[..i + 1][..i] == bindings[..i];
        i := i + 1;
      }
      assert bindings[..i] == bindings;
      if shouldStart {
        calls := calls + [StartDispatcher];
      }
    }

    /** `Unregister<H>`: asks the handler manager to remove exactly H. */
    method Unregister(handler: TypeId)
      modifies this`calls
      ensures calls == old(calls) + [RemoveHandler(handler)]
    {
      calls := calls + [RemoveHandler(handler)];
    }

    /** `SetConcurrentHandlers`: overwrites the dispatcher's in-flight limit. */
    method SetConcurrentHandlers(max: int)
      modifies this`maxInflight
      ensures maxInflight == max
    {
      maxInflight := max;
    }

    /** `HandleIncomingMessage`: hands the message to the handler manager. */
    method HandleIncomingMessage(incoming: Message)
      modifies this`calls
      ensures calls == old(calls) + [TryHandle(incoming)]
    {
      calls := calls + [TryHandle(incoming)];
    }

    /** `Dispose`: stops polling, removes every handler matching `IMessage`
        (`handlers`, as the handler manager reports them), stops the
        dispatcher, and finally removes this node from its parent's registry. */
    method Dispose(handlers: seq<TypeId>)
      requires parent.Valid()
      modifies this`calls, parent`nodes
      ensures parent.Valid()
      ensures calls == old(calls) + DisposeCalls(handlers)
      ensures parent.nodes == Kept(old(parent.nodes), this)
    {
      calls := calls + [StopPolling, GetMatchingHandlers(IMessage)];
      var i := 0;
      while i < |handlers|
        invariant 0 <= i <= |handlers|
        invariant calls == old(calls) + [StopPolling, GetMatchingHandlers(IMessage)] + RemoveCalls(handlers[..i])
        invariant parent.nodes == old(parent.nodes)
      {
        assert RemoveCalls(handlers[..i + 1]) == RemoveCalls(handlers[..i]) + [RemoveHandler(handlers[i])];
        calls := calls + [RemoveHandler(handlers[i])];
        i := i + 1;
      }
      assert handlers[..i] == handlers;
      calls := calls + [StopDispatcher, RemoveFromParent];
      parent.Remove(this);
    }
  }

  class Receiver {
    /** The registered nodes (`_registeredNodes`). */
    var nodes: seq<ReceiverNode>
    /** Purge an endpoint's waiting messages when a node is created on it. */
    var purgeOnConnect: bool
    /** Delete integration endpoints on shutdown. */
    var deleteIntegrationEndpointsOnShutdown: bool
    /** The system concurrency, each new node's initial in-flight limit. */
    const concurrency: int
    /** Calls on the message router, in order. */
    var routerCalls: seq<RouterCall>

    /** Every registered node is registered once and has this receiver as parent. */
    ghost predicate Valid()
      reads this
    {
      Distinct(nodes) && forall i :: 0 <= i < |nodes| ==> nodes[i].parent == this
    }

    /** A new receiver: no nodes, both policies off. */
    constructor (concurrency: int)
      ensures Valid()
      ensures this.concurrency == concurrency
      ensures nodes == [] && routerCalls == []
      ensures !purgeOnConnect && !deleteIntegrationEndpointsOnShutdown
    {
      this.concurrency := concurrency;
      nodes := [];
      purgeOnConnect := false;
      deleteIntegrationEndpointsOnShutdown := false;
      routerCalls := [];
    }

    /** `TakeFrom(endpoint, routingKey = "", bindings)`: purges the endpoint
        first when the purge policy is on, then registers a new node on it and
        registers the bindings with it. */
    method TakeFrom(endpoint: Endpoint, bindings: Option<seq<Binding>>, routingKey: string := DefaultRoutingKey)
      returns (node: ReceiverNode)
      requires Valid()
      modifies this`nodes, this`routerCalls
      ensures Valid()
      ensures fresh(node)
      ensures nodes == old(nodes) + [node]
      ensures node.parent == this && node.endpoint == endpoint && node.routingKey == routingKey
      ensures node.maxInflight == concurrency
      ensures node.calls == SetupCalls(endpoint, routingKey) + RegisterCalls(BindingsOf(bindings))
      ensures routerCalls == old(routerCalls) + PurgeCalls(purgeOnConnect, endpoint)
    {
      if purgeOnConnect {
        PurgeEndpoint(endpoint);
      }
      node := new ReceiverNode(this, endpoint, routingKey, concurrency);
      nodes := nodes + [node];
      node.Register(BindingsOf(bindings));
    }

    /** `Listen(routingKey = "", bindings)`: `TakeFrom` on a freshly generated
        endpoint (the generator's result is `generated`). */
    method Listen(generated: Endpoint, bindings: Option<seq<Binding>>, routingKey: string := DefaultRoutingKey)
      returns (node: ReceiverNode)
      requires Valid()
      modifies this`nodes, this`routerCalls
      ensures Valid()
      ensures fresh(node)
      ensures nodes == old(nodes) + [node]
      ensures node.parent == this && node.endpoint == generated && node.routingKey == routingKey
      ensures node.maxInflight == concurrency
      ensures node.calls == SetupCalls(generated, routingKey) + RegisterCalls(BindingsOf(bindings))
      ensures routerCalls == old(routerCalls) + PurgeCalls(purgeOnConnect, generated)
    {
      node := TakeFrom(generated, bindings, routingKey);
    }

    /** `Remove`: drops every registered node equal to `node`. */
    method Remove(node: ReceiverNode)
      requires Valid()
      modifies this`nodes
      ensures Valid()
      ensures nodes == Kept(old(nodes), node)
    {
      KeptDistinct(nodes, node);
      nodes := Kept(nodes, node);
    }

    /** `SetConcurrentHandlers`: forwards the limit to every registered node. */
    method SetConcurrentHandlers(max: int)
      requires Valid()
      modifies nodes
      ensures forall n :: n in nodes ==> n.maxInflight == max
      ensures forall n :: n in nodes ==> n.calls == old(n.calls)
    {
      var i := 0;
      while i < |nodes|
        invariant 0 <= i <= |nodes|
        invariant forall j :: 0 <= j < i ==> nodes[j].maxInflight == max
        invariant forall n :: n in nodes ==> n.calls == old(n.calls)
      {
        nodes[i].SetConcurrentHandlers(max);
        i := i + 1;
      }
    }

    /** `Shutdown`: disposes every registered node (`handlers(n)` is what the
        handler manager of `n` reports for `IMessage`), empties the registry,
        and deletes the integration endpoints when that policy is on; a router
        error there is swallowed. */
    method Shutdown(handlers: ReceiverNode -> seq<TypeId>)
      requires Valid()
      modifies this, nodes
      ensures Valid()
      ensures nodes == []
      ensures forall n :: n in old(nodes) ==> n.calls == old(n.calls) + DisposeCalls(handlers(n))
      ensures forall n :: n in old(nodes) ==> n.maxInflight == old(n.maxInflight)
      ensures purgeOnConnect == old(purgeOnConnect)
      ensures deleteIntegrationEndpointsOnShutdown == old(deleteIntegrationEndpointsOnShutdown)
      ensures routerCalls == old(routerCalls) + if deleteIntegrationEndpointsOnShutdown then [RemoveRouting] else []
    {
      var registered := nodes;
      var i := 0;
      while i < |registered|
        invariant 0 <= i <= |registered|
        invariant registered == old(nodes)
        invariant Valid()
        invariant forall j :: 0 <= j < |registered| ==> registered[j].parent == this
        invariant purgeOnConnect == old(purgeOnConnect) && routerCalls == old(routerCalls)
        invariant deleteIntegrationEndpointsOnShutdown == old(deleteIntegrationEndpointsOnShutdown)
        invariant forall j :: 0 <= j < i ==> registered[j].calls == old(registered[j].calls) + DisposeCalls(handlers(registered[j]))
        invariant forall j :: i <= j < |registered| ==> registered[j].calls == old(registered[j].calls)
        invariant forall j :: 0 <= j < |registered| ==> registered[j].maxInflight == old(registered[j].maxInflight)
      {
        registered[i].Dispose(handlers(registered[i]));
        i := i + 1;
      }
      nodes := [];
      if deleteIntegrationEndpointsOnShutdown {
        routerCalls := routerCalls + [RemoveRouting];
      }
    }

    /** `Dispose`: shuts every node down. */
    method Dispose(handlers: ReceiverNode -> seq<TypeId>)
      requires Valid()
      modifies this, nodes
      ensures Valid()
      ensures nodes == []
      ensures forall n :: n in old(nodes) ==> n.calls == old(n.calls) + DisposeCalls(handlers(n))
      ensures forall n :: n in old(nodes) ==> n.maxInflight == old(n.maxInflight)
      ensures purgeOnConnect == old(purgeOnConnect)
      ensures deleteIntegrationEndpointsOnShutdown == old(deleteIntegrationEndpointsOnShutdown)
      ensures routerCalls == old(routerCalls) + if deleteIntegrationEndpointsOnShutdown then [RemoveRouting] else []
    {
      Shutdown(handlers);
    }

    /** `PurgeEndpoint`: declares the endpoint's queue, then purges it. */
    method PurgeEndpoint(endpoint: Endpoint)
      modifies this`routerCalls
      ensures routerCalls == old(routerCalls) + PurgeCalls(true, endpoint)
    {
      routerCalls := routerCalls + [AddDestination(endpoint.name), Purge(endpoint.name)];
    }
  }
}
