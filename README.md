# SevenDigital.Messaging routing and node core, in Dafny

This project models the routing and node logic of SevenDigital.Messaging, a
.NET messaging library over RabbitMQ, and proves properties of it. It covers
five parts:

- **Loopback transport.** This is the in-process mode.
  - `TypeRoutingKeyPair` is the value key (message type, routing key).
  - `LoopbackBinding` is the table from such keys to bags of handler types.
  - `LoopbackReceiver` does five things. It binds handlers without
    duplicates. It lets only the first `TakeFrom` on an endpoint name claim
    that endpoint. It matches bindings by type assignability and by an exact
    or `#` routing key. It fans a sent message out to every matching handler
    and reports each success or failure to the event hooks. It unregisters a
    handler type from every binding.
  - `LoopbackSender` forwards to the receiver.
- **Polling node** (`RabbitMqPollingNode`). A work queue that pulls one
  message per dequeue. It backs off through a sleeper and reads broker reply
  codes 404 (rebuild the bindings) and 406 (skip).
- **Receiving registry** (`Receiver`, `ReceiverNode`). Nodes are created,
  registered, disposed and removed. `DeleteNameFilter` is the queue-name
  filter for integration endpoints.
- **Sender node** (`SenderNode`). A persistent FIFO queue drained by a
  dispatcher with one worker, with null-swap disposal.
- **`Naming.GetMacAddress`**. Picks the MAC of the fastest eligible network
  interface.

Collaborators are modelled only through what the code asks of them:

- **Traces.** Hooks, broker client, sleeper, router, dispatcher and handler
  manager appear as ordered call traces held in fields.
- **Oracles.** The runtime's answers are parameters: type assignability, a
  handler's outcome, a pull's outcome, a send's outcome, the hook list and the
  handler manager's matching handlers.
- **Dictionary order.** `Dictionary` enumeration is taken to be insertion
  order; entries are never removed, so this is the order .NET gives.
- **Bags and sets.** `ConcurrentBag`s are sequences. The polling node's
  `ConcurrentSet` is a `set`, and a rebuild may visit it in any order.

Modules: `Values` (shared types), `TypeRoutingKeyPairs`, `LoopbackBindings`,
`LoopbackReceivers`, `LoopbackSenders`, `RabbitPolling`, `Text` (ASCII
lower-casing, prefix/suffix/infix), `MessageReceiving`, `MessageSending`,
`Naming`.

`LoopbackReceiverNode` is not part of this model. `Listen` assumes that its
`Register` calls `Bind(messageType, routingKey, handlerType)` once per binding,
in order.

## Model

| member | source | states |
|---|---|---|
| TypeRoutingKeyPairs.Equals | src/SevenDigital.Messaging/Loopback/TypeRoutingKeyPair.cs:13-18 | true exactly when the other pair is non-null and has the same type and routing key |
| TypeRoutingKeyPairs.EqualsObject | src/SevenDigital.Messaging/Loopback/TypeRoutingKeyPair.cs:23-29 | false for null and for an object of another runtime type; otherwise true exactly for an equal pair |
| TypeRoutingKeyPairs.OpEquality | src/SevenDigital.Messaging/Loopback/TypeRoutingKeyPair.cs:45-48 | `==` holds exactly for two nulls or two equal pairs |
| TypeRoutingKeyPairs.OpInequality | src/SevenDigital.Messaging/Loopback/TypeRoutingKeyPair.cs:53-56 | `!=` is exactly the negation of `==` |
| TypeRoutingKeyPairs.EqualPairsHashAlike | src/SevenDigital.Messaging/Loopback/TypeRoutingKeyPair.cs:34-40 | equal pairs have equal 32-bit hash codes, whatever the runtime's string and type hashes |
| TypeRoutingKeyPairs.AccessorsReturnArguments | src/SevenDigital.Messaging/Loopback/TypeRoutingKeyPair.cs:64-84 | `Type` and `RoutingKey` return the constructor's arguments |
| LoopbackBindings.Put | src/SevenDigital.Messaging/Loopback/LoopbackBinding.cs:35-39 | storing a bag under a key keeps the table well formed, replaces only that key's bag, and appends the key to the order only when it was absent |
| LoopbackBindings.LoopbackBinding.constructor | src/SevenDigital.Messaging/Loopback/LoopbackBinding.cs:18-21 | a new table has no keys |
| LoopbackBindings.LoopbackBinding.IsMessageRegistered | src/SevenDigital.Messaging/Loopback/LoopbackBinding.cs:52-55 | true exactly for keys that were added; never fails |
| LoopbackBindings.LoopbackBinding.ForMessage | src/SevenDigital.Messaging/Loopback/LoopbackBinding.cs:26-30 | the bag of exactly (type, routing key), or empty when unregistered; the routing key defaults to "" |
| LoopbackBindings.LoopbackBinding.Get | src/SevenDigital.Messaging/Loopback/LoopbackBinding.cs:35-39 | the getter returns the key's bag, and a key-not-found error exactly when the key is unregistered |
| LoopbackBindings.LoopbackBinding.MessagesRegistered | src/SevenDigital.Messaging/Loopback/LoopbackBinding.cs:44-47 | lists each registered key exactly once, and only those |
| LoopbackBindings.LoopbackBinding.Set | src/SevenDigital.Messaging/Loopback/LoopbackBinding.cs:35-39 | afterwards the key yields the new bag and every other key keeps its bag |
| LoopbackBindings.LoopbackBinding.AddMessageType | src/SevenDigital.Messaging/Loopback/LoopbackBinding.cs:60-63 | an absent key is registered with an empty bag; a present key is a duplicate-key error and changes nothing |
| LoopbackReceivers.Bound | src/SevenDigital.Messaging/Loopback/LoopbackReceiver.cs:80-89 | after a bind the key is registered and holds the handler; other keys and other handlers are untouched; the handler occurs at most once more than before, and not at all more when it was already bound |
| LoopbackReceivers.BindIsIdempotent | src/SevenDigital.Messaging/Loopback/LoopbackReceiver.cs:86 | binding the same handler twice equals binding it once |
| LoopbackReceivers.BoundAllKeepsHandlers | src/SevenDigital.Messaging/Loopback/LoopbackReceiver.cs:66-75 | registering bindings never drops a key or a handler that was bound |
| LoopbackReceivers.BoundAllBindsEach | src/SevenDigital.Messaging/Loopback/LoopbackReceiver.cs:66-75 | after registration every handler of the list is bound under (its message type, the node's routing key) |
| LoopbackReceivers.FanOutInvokesExactlyMatchingHandlers | src/SevenDigital.Messaging/Loopback/LoopbackReceiver.cs:105-139 | a handler is invoked exactly when it is in the bag of some binding that matches the message |
| LoopbackReceivers.FanOutReceivedOnlyAfterSuccess | src/SevenDigital.Messaging/Loopback/LoopbackReceiver.cs:115-124 | a hook gets MessageReceived exactly when it is registered and some matching handler returned normally |
| LoopbackReceivers.FanOutReportsEachFailure | src/SevenDigital.Messaging/Loopback/LoopbackReceiver.cs:126-136 | a hook gets HandlerFailed(handler, inner) exactly when that matching handler threw that inner exception; later handlers still run |
| LoopbackReceivers.FanOutSendsNoSentHooks | src/SevenDigital.Messaging/Loopback/LoopbackReceiver.cs:94-103 | with handlers that have no side effects on the receiver, no MessageSent happens during the fan-out, so all of them come before the first handler call |
| LoopbackReceivers.IsBindingMatching | src/SevenDigital.Messaging/Loopback/LoopbackReceiver.cs:141-146 | a `#` binding matches exactly when its type is assignable from the message's; any other binding never matches a different routing key |
| LoopbackReceivers.ExactBindingIsDispatched | src/SevenDigital.Messaging/Loopback/LoopbackReceiver.cs:141-146 | a handler bound to the message's own type and routing key is invoked, given that a type is assignable from itself |
| LoopbackReceivers.RoutingKeyMatching | src/SevenDigital.Messaging/Loopback/LoopbackReceiver.cs:141-146 | with the type assignable, a `#` binding matches every routing key and any other binding matches only its own key |
| LoopbackReceivers.BagOfCounts | src/SevenDigital.Messaging/Loopback/LoopbackReceiver.cs:166-175 | the new bag holds each kept element as often as the source did, and no other |
| LoopbackReceivers.WithoutCounts | src/SevenDigital.Messaging/Loopback/LoopbackReceiver.cs:159 | removing a handler drops every copy of it and keeps every other handler with its multiplicity |
| LoopbackReceivers.UnregisterAsWritten | src/SevenDigital.Messaging/Loopback/LoopbackReceiver.cs:155-161 | as written, the table keeps its keys; a run that completes changes nothing; any entry that changed lost exactly the handler |
| LoopbackReceivers.UnregisterAsWrittenThrowsWhenBound | src/SevenDigital.Messaging/Loopback/LoopbackReceiver.cs:155-161 | as written, unregistering a handler that is bound under any key ends in a collection-modified exception |
| LoopbackReceivers.UnregisterAsWrittenLeavesSecondBinding | src/SevenDigital.Messaging/Loopback/LoopbackReceiver.cs:155-161 | as written, a handler bound under two keys stays bound under the second |
| LoopbackReceivers.LoopbackReceiver.constructor | src/SevenDigital.Messaging/Loopback/LoopbackReceiver.cs:22-26 | uses the given table, with no endpoint captured |
| LoopbackReceivers.LoopbackReceiver.TakeFrom | src/SevenDigital.Messaging/Loopback/LoopbackReceiver.cs:43-51 | the first call on an endpoint name captures it and binds like Listen; a later call returns a DummyReceiver and changes no binding |
| LoopbackReceivers.LoopbackReceiver.Listen | src/SevenDigital.Messaging/Loopback/LoopbackReceiver.cs:66-75 | the table becomes the old table with every binding bound under the routing key, in order |
| LoopbackReceivers.LoopbackReceiver.Bind | src/SevenDigital.Messaging/Loopback/LoopbackReceiver.cs:80-89 | the table becomes `Bound(old table, key, handler)` |
| LoopbackReceivers.LoopbackReceiver.Send | src/SevenDigital.Messaging/Loopback/LoopbackReceiver.cs:94-103 | the events are MessageSent on every hook, then the fan-out over the table |
| LoopbackReceivers.LoopbackReceiver.FireCooperativeListeners | src/SevenDigital.Messaging/Loopback/LoopbackReceiver.cs:105-139 | the events are every matching key's handler turns, keys in table order |
| LoopbackReceivers.LoopbackReceiver.NotifyHooks | src/SevenDigital.Messaging/Loopback/LoopbackReceiver.cs:96-100 | the events grow by exactly one callback per hook, in hook order; the same loop reports MessageReceived (lines 120-124) and HandlerFailed (lines 131-135) |
| LoopbackReceivers.LoopbackReceiver.FireHandlers | src/SevenDigital.Messaging/Loopback/LoopbackReceiver.cs:113-137 | each handler is invoked in bag order, followed by MessageReceived or HandlerFailed on every hook |
| LoopbackReceivers.LoopbackReceiver.Unregister | src/SevenDigital.Messaging/Loopback/LoopbackReceiver.cs:151-164 | corrected: every key stays, in order, and every bag loses exactly the handler |
| LoopbackSenders.LoopbackSender.SendMessage | src/SevenDigital.Messaging/Loopback/LoopbackSender.cs:37-40 | the receiver's events grow exactly as for `Send(message, routingKey)`; the routing key defaults to "" |
| LoopbackSenders.NewLoopbackSender | src/SevenDigital.Messaging/Loopback/LoopbackSender.cs:17-21 | construction succeeds exactly for the loopback receiver and keeps it; otherwise it fails |
| RabbitPolling.WorkQueueItem.Finish | src/SevenDigital.Messaging/MessageReceiving/RabbitPolling/RabbitMqPollingNode.cs:57 | a non-empty item's finish action finishes its own message; an empty item has none |
| RabbitPolling.WorkQueueItem.Cancel | src/SevenDigital.Messaging/MessageReceiving/RabbitPolling/RabbitMqPollingNode.cs:57 | a non-empty item's cancel action cancels its own message; an empty item has none |
| RabbitPolling.IsMissingQueue | src/SevenDigital.Messaging/MessageReceiving/RabbitPolling/RabbitMqPollingNode.cs:152-157 | holds only for an interrupted operation, and never together with DoubleAck, so 404 and 406 are told apart whatever the order of the tests |
| RabbitPolling.DoubleAck | src/SevenDigital.Messaging/MessageReceiving/RabbitPolling/RabbitMqPollingNode.cs:145-150 | holds only for an interrupted operation whose reply code is not 404 |
| RabbitPolling.RebuildMembers | src/SevenDigital.Messaging/MessageReceiving/RabbitPolling/RabbitMqPollingNode.cs:159-167 | a rebuild is one ResetCaches and one topic CreateDestination per bound type into the endpoint, each once |
| RabbitPolling.RebuildsCreateSameDestinations | src/SevenDigital.Messaging/MessageReceiving/RabbitPolling/RabbitMqPollingNode.cs:159-167 | two rebuilds over the same bound types make the same calls, however the set is enumerated |
| RabbitPolling.RabbitMqPollingNode.constructor | src/SevenDigital.Messaging/MessageReceiving/RabbitPolling/RabbitMqPollingNode.cs:30-37 | no bound types and no calls yet |
| RabbitPolling.RabbitMqPollingNode.Enqueue | src/SevenDigital.Messaging/MessageReceiving/RabbitPolling/RabbitMqPollingNode.cs:43-46 | always fails |
| RabbitPolling.RabbitMqPollingNode.Length | src/SevenDigital.Messaging/MessageReceiving/RabbitPolling/RabbitMqPollingNode.cs:87-90 | always 0 |
| RabbitPolling.RabbitMqPollingNode.BlockUntilReady | src/SevenDigital.Messaging/MessageReceiving/RabbitPolling/RabbitMqPollingNode.cs:95-98 | always true |
| RabbitPolling.RabbitMqPollingNode.TryDequeue | src/SevenDigital.Messaging/MessageReceiving/RabbitPolling/RabbitMqPollingNode.cs:51-58 | with no bound types: an empty item, one SleepMore, no broker call; otherwise exactly one poll step (see the next two rows) |
| RabbitPolling.RabbitMqPollingNode.SleepingGetMessage | src/SevenDigital.Messaging/MessageReceiving/RabbitPolling/RabbitMqPollingNode.cs:100-120 | Reset exactly after a delivered message, SleepMore after any empty result, no sleeper call when an error propagates |
| RabbitPolling.RabbitMqPollingNode.EnsureQueuesAndPollForMessage | src/SevenDigital.Messaging/MessageReceiving/RabbitPolling/RabbitMqPollingNode.cs:122-143 | one pull; 404 rebuilds and yields nothing, 406 yields nothing without rebuilding, any other error propagates |
| RabbitPolling.RabbitMqPollingNode.AddMessageType | src/SevenDigital.Messaging/MessageReceiving/RabbitPolling/RabbitMqPollingNode.cs:64-71 | the type joins the bound set, then every bound type is rebuilt |
| RabbitPolling.RabbitMqPollingNode.Stop | src/SevenDigital.Messaging/MessageReceiving/RabbitPolling/RabbitMqPollingNode.cs:76-82 | empties the bound set, so later dequeues idle |
| RabbitPolling.RabbitMqPollingNode.TryRebuildQueues | src/SevenDigital.Messaging/MessageReceiving/RabbitPolling/RabbitMqPollingNode.cs:159-167 | appends a rebuild over the current bound set, in some enumeration order |
| Text.LowerChar | src/SevenDigital.Messaging/MessageReceiving/Receiver.cs:191 | ASCII upper-case letters map to lower case, every other character is unchanged, and the result is never upper case |
| Text.Lower | src/SevenDigital.Messaging/MessageReceiving/Receiver.cs:191 | same length, each character lower-cased |
| Text.LowerIdempotent | src/SevenDigital.Messaging/MessageReceiving/Receiver.cs:192 | lower-casing twice equals lower-casing once |
| Text.ContainsIff | src/SevenDigital.Messaging/MessageReceiving/Receiver.cs:192 | `Contains` holds exactly when the pattern occurs at some position |
| MessageReceiving.BindingCallsInOrder | src/SevenDigital.Messaging/MessageReceiving/ReceiverNode.cs:56-63 | one AddMessageType then one AddHandler per binding, in binding order |
| MessageReceiving.RegisterStartsIffBound | src/SevenDigital.Messaging/MessageReceiving/ReceiverNode.cs:55-64 | the dispatcher is started exactly when there is a binding, once, after all bindings |
| MessageReceiving.DisposeOrder | src/SevenDigital.Messaging/MessageReceiving/ReceiverNode.cs:100-110 | dispose stops polling first, removes exactly the reported handlers, stops the dispatcher after them, and leaves the parent last of all |
| MessageReceiving.SameNode | src/SevenDigital.Messaging/MessageReceiving/ReceiverNode.cs:115-125 | two nodes are equal exactly when endpoint and routing key are equal |
| MessageReceiving.SameNodesHashAlike | src/SevenDigital.Messaging/MessageReceiving/ReceiverNode.cs:127-133 | equal nodes have equal hash codes |
| MessageReceiving.Kept | src/SevenDigital.Messaging/MessageReceiving/Receiver.cs:128 | the filtered list holds exactly the nodes not equal to the removed one |
| MessageReceiving.RemovingEqualNodeDropsTwin | src/SevenDigital.Messaging/MessageReceiving/Receiver.cs:124-131 | a node equal to the removed one (same endpoint and routing key) leaves the registry with it, so `Shutdown` never disposes it |
| MessageReceiving.KeptDistinct | src/SevenDigital.Messaging/MessageReceiving/Receiver.cs:128 | filtering a list without duplicates gives a list without duplicates |
| MessageReceiving.DeleteNameFilter | src/SevenDigital.Messaging/MessageReceiving/Receiver.cs:189-196 | true exactly when the lower-cased name contains ".integration.", ends with "sevendigital.messaging_listener" or starts with "test_listener_" |
| MessageReceiving.DeleteNameFilterIgnoresCase | src/SevenDigital.Messaging/MessageReceiving/Receiver.cs:191-192 | names that lower-case alike are filtered alike |
| MessageReceiving.BindingsOf | src/SevenDigital.Messaging/MessageReceiving/Receiver.cs:79-80 | a null binding action leaves no bindings |
| MessageReceiving.ReceiverNode.constructor | src/SevenDigital.Messaging/MessageReceiving/ReceiverNode.cs:33-48 | creates the polling node and the named dispatcher, adds the consumer, and sets the system concurrency as the in-flight limit |
| MessageReceiving.ReceiverNode.DestinationName | src/SevenDigital.Messaging/MessageReceiving/ReceiverNode.cs:70 | the endpoint's name |
| MessageReceiving.ReceiverNode.Register | src/SevenDigital.Messaging/MessageReceiving/ReceiverNode.cs:53-65 | the calls grow by exactly the register calls of the bindings |
| MessageReceiving.ReceiverNode.Unregister | src/SevenDigital.Messaging/MessageReceiving/ReceiverNode.cs:76-79 | one RemoveHandler of exactly the handler |
| MessageReceiving.ReceiverNode.SetConcurrentHandlers | src/SevenDigital.Messaging/MessageReceiving/ReceiverNode.cs:84-87 | overwrites the in-flight limit |
| MessageReceiving.ReceiverNode.HandleIncomingMessage | src/SevenDigital.Messaging/MessageReceiving/ReceiverNode.cs:92-95 | one TryHandle of the message |
| MessageReceiving.ReceiverNode.Dispose | src/SevenDigital.Messaging/MessageReceiving/ReceiverNode.cs:100-110 | the node's calls grow by the dispose calls, ending with its removal from the parent; the parent's registry loses this node and every node equal to it and stays valid |
| MessageReceiving.Receiver.constructor | src/SevenDigital.Messaging/MessageReceiving/Receiver.cs:36-50 | no nodes, both policy flags false |
| MessageReceiving.Receiver.TakeFrom | src/SevenDigital.Messaging/MessageReceiving/Receiver.cs:67-85 | the router calls grow by a purge of the endpoint exactly under the purge policy; exactly one fresh node on the endpoint is appended and the bindings are registered on it; the routing key defaults to "" |
| MessageReceiving.Receiver.Listen | src/SevenDigital.Messaging/MessageReceiving/Receiver.cs:100-103 | TakeFrom on the generated endpoint |
| MessageReceiving.Receiver.Remove | src/SevenDigital.Messaging/MessageReceiving/Receiver.cs:124-131 | the registry keeps exactly the nodes not equal to the argument, and stays free of duplicates with this receiver as every node's parent |
| MessageReceiving.Receiver.SetConcurrentHandlers | src/SevenDigital.Messaging/MessageReceiving/Receiver.cs:136-145 | every registered node gets the new limit, and no node's call trace changes |
| MessageReceiving.Receiver.Shutdown | src/SevenDigital.Messaging/MessageReceiving/Receiver.cs:108-119 | every registered node is disposed and keeps its in-flight limit, the registry is empty, and endpoints are deleted only under the delete policy |
| MessageReceiving.Receiver.Dispose | src/SevenDigital.Messaging/MessageReceiving/Receiver.cs:163-166 | the same as Shutdown: every node disposed with its in-flight limit kept, the registry empty, the policy flags unchanged, endpoints deleted only under the delete policy |
| MessageReceiving.Receiver.PurgeEndpoint | src/SevenDigital.Messaging/MessageReceiving/Receiver.cs:198-202 | declares the endpoint's queue, then purges it |
| MessageSending.Prepare | src/SevenDigital.Messaging/MessageSending/SenderNode.cs:82 | the payload carries the message and routing key for the topic exchange |
| MessageSending.SenderNode.constructor | src/SevenDigital.Messaging/MessageSending/SenderNode.cs:30-53 | the dispatcher is set to one in flight, given its consumer and exception handler, and started, over the stored queue |
| MessageSending.SenderNode.SendMessage | src/SevenDigital.Messaging/MessageSending/SenderNode.cs:80-85 | exactly one prepared payload joins the back of the queue and the sent hooks fire once for the message; after dispose it fails and changes nothing; the routing key defaults to "" |
| MessageSending.SenderNode.SendWaitingMessage | src/SevenDigital.Messaging/MessageSending/SenderNode.cs:90-94 | the sleeper is reset exactly when the broker took the payload |
| MessageSending.SenderNode.SendingExceptions | src/SevenDigital.Messaging/MessageSending/SenderNode.cs:58-64 | backs off and cancels the work item |
| MessageSending.SenderNode.DispatchNext | src/SevenDigital.Messaging/MessageSending/SenderNode.cs:49-52 | with one worker, the head is delivered and leaves the queue, or stays at the head after a backoff; delivered followed by pending always equals everything queued, in order |
| MessageSending.SenderNode.Dispose | src/SevenDigital.Messaging/MessageSending/SenderNode.cs:100-111 | drains the dispatcher and disposes the queue only if still attached, so each happens at most once over repeated calls; Cleanup runs every time |
| Naming.GetMacAddress | src/SevenDigital.Messaging/Routing/Naming.cs:14-28 | "" exactly when no interface has speed > -1 and a full-length MAC; otherwise the MAC, of length at least 12, of the first fastest eligible interface; the interfaces that replace the best so far are exactly those eligible and faster than every eligible one before them, in scan order, with strictly rising speeds, and the last of them gives the result |
| Naming.FirstFastestUnique | src/SevenDigital.Messaging/Routing/Naming.cs:23-25 | at most one interface is the first fastest eligible one, so the choice is determined |

## Left out

- Dependency injection (`ObjectFactory`, StructureMap). Hook lists, handler instances and the handler manager are given as inputs.
- `LoopbackReceiverNode`, `DummyReceiver`, `Binding` and the handler manager are not part of this model. Only the calls made on them are recorded.
- Exceptions thrown by event hooks themselves are not modelled. In the source such an exception would escape `Send` or land in the handler's catch block.
- Null arguments are not modelled: null keys, null endpoints and null routing keys, including the hash code's null branches. The one exception is the null binding action of `Receiver.TakeFrom`, which is modelled.
- Reflection is replaced by parameters. `Type.IsAssignableFrom` is the `assignable` relation. `InvokeMember` is the `run` oracle. A handler's runtime type is taken to equal its bound type.
- Serialisation (`PrepareForSend`, `ToBytes`, `FromBytes`) is the identity on payloads.
- The persistent queue is not part of this model. Its Cancel is modelled as leaving the item at the head of the queue, so the item is retried.
- `WaitForEmptyQueueAndStop` is recorded as a call. Its timeout and draining are not modelled.
- Sleeper durations, `Log.Warning` text and `MessagingSystem.ShutdownTimeout` are left out. Only `SleepMore` and `Reset` calls are counted.
- Concurrency is not modelled. Everything runs sequentially: locks, `Interlocked.Exchange`, worker threads, and the thread safety of `ConcurrentBag` and `ConcurrentSet`.
- The order in which `ConcurrentBag` enumerates is taken to be insertion order. On one thread .NET enumerates a bag most recent first, so the model reverses the real order. This covers the handler order within a loopback binding, the order of `Receiver.Remove`'s filtered registry and the order in which `Receiver.Shutdown` disposes nodes. Which calls are made is unaffected; only their order is.
- Endpoint equality is modelled as equality of queue names. `ReceiverNode.Equals` and `GetHashCode` delegate to the `Endpoint` class (ReceiverNode.cs:117 and 131), and that class is not part of this model. If it compared by reference, `SameNode`, `Kept`, `Receiver.Remove` and `ReceiverNode.Dispose` would keep nodes on equal-named but distinct endpoints that the model drops.
- `ToLowerInvariant` is modelled on ASCII letters only. Culture-sensitive `StartsWith`/`EndsWith` are modelled as ordinal comparisons on the lower-cased name.
- MessageReceiving.Receiver.Shutdown: the router's `RemoveRouting(DeleteNameFilter)` is recorded as one call, and any error from it is swallowed, as in the source. Which queues the router deletes is not modelled; the filter itself is stated separately by `DeleteNameFilter`.
- RabbitPolling.RabbitMqPollingNode.TryRebuildQueues: `ResetCaches` and `CreateDestination` are modelled as always succeeding. In the source an exception from either stops the rebuild part way.
- RabbitPolling.RabbitMqPollingNode.AddMessageType: a failing rebuild would propagate out of `AddMessageType` after the type was bound; the model's rebuild never fails.
- RabbitPolling.RabbitMqPollingNode.EnsureQueuesAndPollForMessage: on a 404 the rebuild is taken to succeed, so the result is always "no message". In the source a failing rebuild propagates, and `SleepingGetMessage` then records no `SleepMore`.
- MessageReceiving.Receiver.PurgeEndpoint: the router's `AddDestination` and `Purge` are modelled as always succeeding. In the source an error from either escapes `TakeFrom` before any node is created.
- MessageReceiving.Receiver.TakeFrom: the purge is recorded in the router trace and the new node in the registry, two separate fields. The contract does not state that the purge happens before the node is created (Receiver.cs:71-77); the sequential model cannot observe that order.
- MessageSending.SenderNode.SendMessage: the queued payload and the sent hooks are recorded in separate fields. The contract does not state that the payload is queued before the hooks fire (SenderNode.cs:82-84); the sequential model cannot observe that order.
- MessageSending.SenderNode.SendWaitingMessage: it neither requires nor keeps `Valid()`. It is the consumer the dispatcher calls, and the only call in the model is from `DispatchNext`, which removes the queue's head right after a successful send and so restores `Valid()`.
- LoopbackReceivers.LoopbackReceiver.Send: a handler's own effects are not modelled. The `run` oracle gives only its outcome. In the source a handler may call `Send` or `Bind` on the same receiver from inside `Handle` (LoopbackReceiver.cs:117); the events of such a nested send (its MessageSent hooks and its whole fan-out) then occur inside the outer fan-out, which the exact event contracts here do not allow for.
- LoopbackReceivers.LoopbackReceiver.FireCooperativeListeners: the events are exactly the fan-out only for handlers without side effects on the receiver; nested sends and binds from a handler are not modelled.
- LoopbackReceivers.LoopbackReceiver.FireHandlers: the events are exactly each handler's turn only for handlers without side effects on the receiver; nested sends and binds from a handler are not modelled.
- LoopbackSenders.LoopbackSender.SendMessage: inherits the same limit from `Send`: events caused by handlers that themselves send are not modelled.
- LoopbackReceivers.FanOutSendsNoSentHooks: holds for the modelled handlers, which have no side effects; a handler that sends a message would fire MessageSent during the fan-out.
- `Naming.GoodAssemblyName` (assembly reflection) and `NetworkInterface.GetAllNetworkInterfaces` (an OS query) are left out. The interface list is an input.
- `LoopbackSender.Dispose` does nothing in the source, so there is nothing to state about it.
- `LoopbackBinding.GetEnumerator` is modelled only as the table's key order plus its bags, through `Snapshot`.

## Findings

| source | as written | input that shows it | evidently intended | confidence | as-written member | corrected member |
|---|---|---|---|---|---|---|
| src/SevenDigital.Messaging/Loopback/LoopbackReceiver.cs:155-161 | `Unregister<T>` assigns `listenerBindings[kvp.Key]` while a `foreach` enumerates the same dictionary. On .NET Framework the indexer setter bumps the dictionary's version, so the next `MoveNext` throws `InvalidOperationException`. The handler is stripped from the first entry that holds it and from no other. | ColourMessageHandler bound under both (IColourMessage, "") and (IComicBookCharacterMessage, ""). Unregistering it throws, and the second entry still holds it. Shown by `UnregisterAsWrittenLeavesSecondBinding`; `UnregisterAsWrittenThrowsWhenBound` shows that every bound handler throws. | Remove the handler from every entry and keep every key, for example by iterating over a snapshot of the keys. | medium (depends on the runtime: .NET Core 3.0 and later no longer invalidate on overwrite); not executed | LoopbackReceivers.UnregisterAsWritten | LoopbackReceivers.LoopbackReceiver.Unregister |
