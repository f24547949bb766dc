/** The loopback receiver: the in-process transport used in loopback mode. It
    binds handler types into a shared binding table, lets only the first
    `TakeFrom` on an endpoint name claim that endpoint, and on `Send` fans a
    message out to every handler of every binding that matches it.

    Type assignability (`Type.IsAssignableFrom`) is a relation fixed at
    construction; event hooks are given as the list the container returns; the
    reflective call of a handler's `Handle` is an oracle that returns normally
    or throws. Every hook call and handler call is recorded in `events`. */
module LoopbackReceivers {
  import opened Values
  import opened TypeRoutingKeyPairs
  import opened LoopbackBindings

  /** The routing key that matches every message routing key. */
  const Wildcard: string := "#"

  /** An event hook registered in the container, by position. */
  type HookId = nat

  /** An exception, by its description. */
  datatype Fault = Fault(description: string)

  /** What a handler's `Handle` does: return normally, or throw (the reflective
      call wraps the handler's exception; `inner` is that inner exception). */
  datatype HandlerOutcome = Handled | Threw(inner: Fault)

  /** The three IEventHook callbacks. */
  datatype HookCall = MessageSent | MessageReceived | HandlerFailed(handler: TypeId, inner: Fault)

  /** An observable step of a send: a hook callback or a handler invocation. */
  datatype Event =
    | HookFired(hook: HookId, call: HookCall, message: Message)
    | HandleInvoked(handler: TypeId, message: Message)

  /** What `TakeFrom`/`Listen` return: a live loopback node with its routing
      key, or the DummyReceiver stand-in for an already claimed endpoint. */
  datatype ReceiverNodeHandle = DummyReceiver | LoopbackReceiverNode(routingKey: string)

  /** One binding of a node: (message type, handler type). */
  type BindingPair = (TypeId, TypeId)

  // ---------------------------------------------------------------------------
  // Binding

  /** The table after `Bind(key.msgType, key.routingKey, handler)`: the key is
      registered if absent, and the handler is appended unless already there. */
  function Bound(t: Table, key: TypeRoutingKeyPair, handler: TypeId): (r: Table)
    requires t.WellFormed()
    ensures r.WellFormed()
    ensures key in r.bags && handler in r.bags[key]
    ensures key in t.bags ==> r.keys == t.keys
    ensures key !in t.bags ==> r.keys == t.keys + [key]
    ensures forall k :: k in t.bags && k != key ==> r.bags[k] == t.bags[k]
    ensures forall h :: h != handler ==> multiset(r.bags[key])[h] == (if key in t.bags then multiset(t.bags[key])[h] else 0)
    ensures multiset(r.bags[key])[handler] == (if key in t.bags && handler in t.bags[key] then multiset(t.bags[key])[handler] else 1)
  {
    var registered := if key in t.bags then t else Put(t, key, []);
    if handler in registered.bags[key] then registered
    else Put(registered, key, registered.bags[key] + [handler])
  }

  /** Binding a handler that is already bound changes nothing: `Bind` is idempotent. */
  lemma BindIsIdempotent(t: Table, key: TypeRoutingKeyPair, handler: TypeId)
    requires t.WellFormed()
    ensures Bound(Bound(t, key, handler), key, handler) == Bound(t, key, handler)
  {
  }

  /** The table after binding every (message type, handler) of `bindings`, in
      order, under one routing key. */
  function BoundAll(t: Table, routingKey: string, bindings: seq<BindingPair>): (r: Table)
    requires t.WellFormed()
    ensures r.WellFormed()
    decreases |bindings|
  {
    if bindings == [] then t
    else
      var last := bindings[|bindings| - 1];
      Bound(BoundAll(t, routingKey, bindings[..|bindings| - 1]), TypeRoutingKeyPair(last.0, routingKey), last.1)
  }

  /** Binding never drops a key or a handler. */
  lemma {:induction false} BoundAllKeepsHandlers(t: Table, routingKey: string, bindings: seq<BindingPair>, k: TypeRoutingKeyPair, h: TypeId)
    requires t.WellFormed()
    requires k in t.bags && h in t.bags[k]
    ensures k in BoundAll(t, routingKey, bindings).bags && h in BoundAll(t, routingKey, bindings).bags[k]
    decreases |bindings|
  {
    if bindings != [] {
      BoundAllKeepsHandlers(t, routingKey, bindings[..|bindings| - 1], k, h);
      var prev := BoundAll(t, routingKey, bindings[..|bindings| - 1]);
      var last := bindings[|bindings| - 1];
      var key := TypeRoutingKeyPair(last.0, routingKey);
      if k == key {
        assert multiset(prev.bags[k])[h] > 0;
      }
    }
  }

  /** After registering a list of bindings under a routing key, each of its
      handlers is bound to (its message type, that routing key). */
  lemma {:induction false} BoundAllBindsEach(t: Table, routingKey: string, bindings: seq<BindingPair>, i: nat)
    requires t.WellFormed()
    requires i < |bindings|
    ensures TypeRoutingKeyPair(bindings[i].0, routingKey) in BoundAll(t, routingKey, bindings).bags
    ensures bindings[i].1 in BoundAll(t, routingKey, bindings).bags[TypeRoutingKeyPair(bindings[i].0, routingKey)]
    decreases |bindings|
  {
    var init := bindings[..|bindings| - 1];
    var prev := BoundAll(t, routingKey, init);
    if i == |bindings| - 1 {
    } else {
      BoundAllBindsEach(t, routingKey, init, i);
      assert init[i] == bindings[i];
      var last := bindings[|bindings| - 1];
      BoundAllKeepsHandlers(prev, routingKey, [last], TypeRoutingKeyPair(bindings[i].0, routingKey), bindings[i].1);
      assert [last][..0] == [];
    }
  }

  // ---------------------------------------------------------------------------
  // Matching and fan-out

  /** `IsBindingMatching`: the bound type is assignable from the message's
      runtime type, and the bound key is the message's key or the wildcard `#`.
      Only a whole-key `#` is a wildcard; this is not topic-pattern matching. */
  predicate IsBindingMatching(binding: TypeRoutingKeyPair, msg: TypeId, routingKey: string, assignable: (TypeId, TypeId) -> bool)
    ensures binding.routingKey == Wildcard ==> (IsBindingMatching(binding, msg, routingKey, assignable) <==> assignable(binding.msgType, msg))
    ensures binding.routingKey != Wildcard && binding.routingKey != routingKey ==> !IsBindingMatching(binding, msg, routingKey, assignable)
  {
    assignable(binding.msgType, msg) && (binding.routingKey == routingKey || binding.routingKey == Wildcard)
  }

  /** One callback per hook, in hook order. */
  function HookEvents(hooks: seq<HookId>, call: HookCall, m: Message): seq<Event>
  {
    seq(|hooks|, i requires 0 <= i < |hooks| => HookFired(hooks[i], call, m))
  }

  /** One handler's turn: it is invoked; if it returns normally every hook gets
      MessageReceived, if it throws every hook gets HandlerFailed. */
  function HandlerEvents(hooks: seq<HookId>, m: Message, handler: TypeId, outcome: HandlerOutcome): seq<Event>
  {
    [HandleInvoked(handler, m)] +
    match outcome
    case Handled => HookEvents(hooks, MessageReceived, m)
    case Threw(inner) => HookEvents(hooks, HandlerFailed(handler, inner), m)
  }

  /** The turns of every handler in one bag, in bag order. */
  function BindingEvents(hooks: seq<HookId>, m: Message, handlers: seq<TypeId>, run: (TypeId, Message) -> HandlerOutcome): seq<Event>
    decreases |handlers|
  {
    if handlers == [] then []
    else
      var h := handlers[|handlers| - 1];
      BindingEvents(hooks, m, handlers[..|handlers| - 1], run) + HandlerEvents(hooks, m, h, run(h, m))
  }

  /** `FireCooperativeListeners`: the turns of every handler of every matching
      key, keys in table order. */
  function FanOut(keys: seq<TypeRoutingKeyPair>, bags: map<TypeRoutingKeyPair, HandlerBag>, m: Message, routingKey: string,
                  hooks: seq<HookId>, run: (TypeId, Message) -> HandlerOutcome, assignable: (TypeId, TypeId) -> bool): seq<Event>
    requires forall k | k in keys :: k in bags
    decreases |keys|
  {
    if keys == [] then []
    else
      var k := keys[|keys| - 1];
      FanOut(keys[..|keys| - 1], bags, m, routingKey, hooks, run, assignable) +
      (if IsBindingMatching(k, m.runtimeType, routingKey, assignable) then BindingEvents(hooks, m, bags[k], run) else [])
  }

  /** Everything `Send(m, routingKey)` does, in order: MessageSent on every hook,
      then the fan-out. */
  function Delivery(t: Table, m: Message, routingKey: string, hooks: seq<HookId>,
                    run: (TypeId, Message) -> HandlerOutcome, assignable: (TypeId, TypeId) -> bool): seq<Event>
    requires t.WellFormed()
  {
    HookEvents(hooks, MessageSent, m) + FanOut(t.keys, t.bags, m, routingKey, hooks, run, assignable)
  }

  lemma HookEventsMembers(hooks: seq<HookId>, call: HookCall, m: Message, e: Event)
    ensures e in HookEvents(hooks, call, m) <==> e.HookFired? && e.hook in hooks && e.call == call && e.message == m
  {
    if e in HookEvents(hooks, call, m) {
      var i :| 0 <= i < |hooks| && HookEvents(hooks, call, m)[i] == e;
    }
    if e.HookFired? && e.hook in hooks && e.call == call && e.message == m {
      var i :| 0 <= i < |hooks| && hooks[i] == e.hook;
      assert HookEvents(hooks, call, m)[i] == e;
    }
  }

  /** The events of one handler's turn. */
  lemma HandlerEventsMembers(hooks: seq<HookId>, m: Message, handler: TypeId, outcome: HandlerOutcome, e: Event)
    ensures e in HandlerEvents(hooks, m, handler, outcome) <==>
      e == HandleInvoked(handler, m) ||
      (e.HookFired? && e.hook in hooks && e.message == m &&
       e.call == (match outcome case Handled => MessageReceived case Threw(inner) => HandlerFailed(handler, inner)))
  {
    match outcome
    case Handled => HookEventsMembers(hooks, MessageReceived, m, e);
    case Threw(inner) => HookEventsMembers(hooks, HandlerFailed(handler, inner), m, e);
  }

  /** An event of a bag's turns belongs to the turn of some handler in the bag. */
  lemma {:induction false} BindingEventsMembers(hooks: seq<HookId>, m: Message, handlers: seq<TypeId>, run: (TypeId, Message) -> HandlerOutcome, e: Event)
    ensures e in BindingEvents(hooks, m, handlers, run) <==>
      exists h :: h in handlers && e in HandlerEvents(hooks, m, h, run(h, m))
    decreases |handlers|
  {
    if handlers != [] {
      var init := handlers[..|handlers| - 1];
      var last := handlers[|handlers| - 1];
      BindingEventsMembers(hooks, m, init, run, e);
      assert handlers == init + [last];
      if e in BindingEvents(hooks, m, handlers, run) {
        if e !in BindingEvents(hooks, m, init, run) {
          assert e in HandlerEvents(hooks, m, last, run(last, m));
        }
      }
    }
  }

  /** An event of the fan-out belongs to the turns of some matching key's bag. */
  lemma {:induction false} FanOutMembers(keys: seq<TypeRoutingKeyPair>, bags: map<TypeRoutingKeyPair, HandlerBag>, m: Message, routingKey: string,
                                         hooks: seq<HookId>, run: (TypeId, Message) -> HandlerOutcome, assignable: (TypeId, TypeId) -> bool, e: Event)
    requires forall k | k in keys :: k in bags
    ensures e in FanOut(keys, bags, m, routingKey, hooks, run, assignable) <==>
      exists k :: k in keys && IsBindingMatching(k, m.runtimeType, routingKey, assignable) && e in BindingEvents(hooks, m, bags[k], run)
    decreases |keys|
  {
    if keys != [] {
      var init := keys[..|keys| - 1];
      var last := keys[|keys| - 1];
      FanOutMembers(init, bags, m, routingKey, hooks, run, assignable, e);
      assert keys == init + [last];
    }
  }

  /** Fan-out invokes exactly the handlers of the matching bindings: each
      handler of each binding whose type is assignable from the message type and
      whose key is the message key or `#`, whatever the other handlers do. */
  lemma FanOutInvokesExactlyMatchingHandlers(keys: seq<TypeRoutingKeyPair>, bags: map<TypeRoutingKeyPair, HandlerBag>, m: Message, routingKey: string,
                                             hooks: seq<HookId>, run: (TypeId, Message) -> HandlerOutcome, assignable: (TypeId, TypeId) -> bool, h: TypeId)
    requires forall k | k in keys :: k in bags
    ensures HandleInvoked(h, m) in FanOut(keys, bags, m, routingKey, hooks, run, assignable) <==>
      exists k :: k in keys && IsBindingMatching(k, m.runtimeType, routingKey, assignable) && h in bags[k]
  {
    var e := HandleInvoked(h, m);
    FanOutMembers(keys, bags, m, routingKey, hooks, run, assignable, e);
    forall k | k in keys
      ensures e in BindingEvents(hooks, m, bags[k], run) <==> h in bags[k]
    {
      BindingEventsMembers(hooks, m, bags[k], run, e);
      forall h' ensures e in HandlerEvents(hooks, m, h', run(h', m)) <==> h' == h {
        HandlerEventsMembers(hooks, m, h', run(h', m), e);
      }
    }
  }

  /** A hook is told MessageReceived exactly when it is registered and some
      matching handler returned normally; a handler that throws never causes it. */
  lemma FanOutReceivedOnlyAfterSuccess(keys: seq<TypeRoutingKeyPair>, bags: map<TypeRoutingKeyPair, HandlerBag>, m: Message, routingKey: string,
                                       hooks: seq<HookId>, run: (TypeId, Message) -> HandlerOutcome, assignable: (TypeId, TypeId) -> bool, hook: HookId)
    requires forall k | k in keys :: k in bags
    ensures HookFired(hook, MessageReceived, m) in FanOut(keys, bags, m, routingKey, hooks, run, assignable) <==>
      hook in hooks &&
      exists k, h :: k in keys && IsBindingMatching(k, m.runtimeType, routingKey, assignable) && h in bags[k] && run(h, m) == Handled
  {
    var e := HookFired(hook, MessageReceived, m);
    FanOutMembers(keys, bags, m, routingKey, hooks, run, assignable, e);
    forall k | k in keys
      ensures e in BindingEvents(hooks, m, bags[k], run) <==> hook in hooks && exists h :: h in bags[k] && run(h, m) == Handled
    {
      BindingEventsMembers(hooks, m, bags[k], run, e);
      forall h' ensures e in HandlerEvents(hooks, m, h', run(h', m)) <==> hook in hooks && run(h', m) == Handled {
        HandlerEventsMembers(hooks, m, h', run(h', m), e);
      }
    }
  }

  /** A hook is told HandlerFailed(h, inner) exactly when it is registered, h is
      a handler of some matching binding, and h threw with that inner exception. */
  lemma FanOutReportsEachFailure(keys: seq<TypeRoutingKeyPair>, bags: map<TypeRoutingKeyPair, HandlerBag>, m: Message, routingKey: string,
                                 hooks: seq<HookId>, run: (TypeId, Message) -> HandlerOutcome, assignable: (TypeId, TypeId) -> bool,
                                 hook: HookId, h: TypeId, inner: Fault)
    requires forall k | k in keys :: k in bags
    ensures HookFired(hook, HandlerFailed(h, inner), m) in FanOut(keys, bags, m, routingKey, hooks, run, assignable) <==>
      hook in hooks && run(h, m) == Threw(inner) &&
      exists k :: k in keys && IsBindingMatching(k, m.runtimeType, routingKey, assignable) && h in bags[k]
  {
    var e := HookFired(hook, HandlerFailed(h, inner), m);
    FanOutMembers(keys, bags, m, routingKey, hooks, run, assignable, e);
    forall k | k in keys
      ensures e in BindingEvents(hooks, m, bags[k], run) <==> hook in hooks && run(h, m) == Threw(inner) && h in bags[k]
    {
      BindingEventsMembers(hooks, m, bags[k], run, e);
      forall h' ensures e in HandlerEvents(hooks, m, h', run(h', m)) <==> hook in hooks && h' == h && run(h', m) == Threw(inner) {
        HandlerEventsMembers(hooks, m, h', run(h', m), e);
      }
    }
  }

  /** No MessageSent callback happens during the fan-out, so every MessageSent
      of a send comes before the first handler is invoked. */
  lemma FanOutSendsNoSentHooks(keys: seq<TypeRoutingKeyPair>, bags: map<TypeRoutingKeyPair, HandlerBag>, m: Message, routingKey: string,
                               hooks: seq<HookId>, run: (TypeId, Message) -> HandlerOutcome, assignable: (TypeId, TypeId) -> bool, hook: HookId)
    requires forall k | k in keys :: k in bags
    ensures HookFired(hook, MessageSent, m) !in FanOut(keys, bags, m, routingKey, hooks, run, assignable)
  {
    var e := HookFired(hook, MessageSent, m);
    FanOutMembers(keys, bags, m, routingKey, hooks, run, assignable, e);
    forall k | k in keys
      ensures e !in BindingEvents(hooks, m, bags[k], run)
    {
      BindingEventsMembers(hooks, m, bags[k], run, e);
      forall h' ensures e !in HandlerEvents(hooks, m, h', run(h', m)) {
        HandlerEventsMembers(hooks, m, h', run(h', m), e);
      }
    }
  }

  /** A handler bound to exactly the message's runtime type and routing key
      (what `ForMessage` reports) is invoked by the fan-out, since a type is
      assignable from itself. */
  lemma ExactBindingIsDispatched(t: Table, m: Message, routingKey: string, hooks: seq<HookId>,
                                 run: (TypeId, Message) -> HandlerOutcome, assignable: (TypeId, TypeId) -> bool, h: TypeId)
    requires t.WellFormed()
    requires assignable(m.runtimeType, m.runtimeType)
    requires TypeRoutingKeyPair(m.runtimeType, routingKey) in t.bags
    requires h in t.bags[TypeRoutingKeyPair(m.runtimeType, routingKey)]
    ensures HandleInvoked(h, m) in Delivery(t, m, routingKey, hooks, run, assignable)
  {
    FanOutInvokesExactlyMatchingHandlers(t.keys, t.bags, m, routingKey, hooks, run, assignable, h);
    assert IsBindingMatching(TypeRoutingKeyPair(m.runtimeType, routingKey), m.runtimeType, routingKey, assignable);
  }

  /** A binding under `#` dispatches a message whose type it accepts, whatever
      the message's routing key; a binding under any other key dispatches only
      messages sent with exactly that key. */
  lemma RoutingKeyMatching(binding: TypeRoutingKeyPair, msg: TypeId, routingKey: string, assignable: (TypeId, TypeId) -> bool)
    requires assignable(binding.msgType, msg)
    ensures binding.routingKey == Wildcard ==> IsBindingMatching(binding, msg, routingKey, assignable)
    ensures binding.routingKey != Wildcard ==> (IsBindingMatching(binding, msg, routingKey, assignable) <==> routingKey == binding.routingKey)
  {
  }

  // ---------------------------------------------------------------------------
  // Unregistering

  /** `BagOf(source, predicate)`: a new bag with the elements the predicate keeps. */
  function BagOf(source: HandlerBag, keep: TypeId -> bool): HandlerBag
    decreases |source|
  {
    if source == [] then []
    else
      var last := source[|source| - 1];
      BagOf(source[..|source| - 1], keep) + (if keep(last) then [last] else [])
  }

  /** `BagOf` keeps every element the predicate accepts, as often as it occurs,
      and drops every other. */
  lemma {:induction false} BagOfCounts(source: HandlerBag, keep: TypeId -> bool, x: TypeId)
    ensures multiset(BagOf(source, keep))[x] == if keep(x) then multiset(source)[x] else 0
    decreases |source|
  {
    if source != [] {
      var init := source[..|source| - 1];
      var last := source[|source| - 1];
      assert source == init + [last];
      BagOfCounts(init, keep, x);
    }
  }

  /** The bag `Unregister<T>` puts in place of `source`: `BagOf(source, t => t != T)`. */
  function Without(source: HandlerBag, handler: TypeId): HandlerBag
  {
    BagOf(source, t => t != handler)
  }

  /** Removing a handler drops every copy of it and keeps every other handler
      with its multiplicity. */
  lemma WithoutCounts(source: HandlerBag, handler: TypeId, x: TypeId)
    ensures multiset(Without(source, handler))[x] == if x == handler then 0 else multiset(source)[x]
    ensures handler !in Without(source, handler)
  {
    BagOfCounts(source, t => t != handler, x);
    BagOfCounts(source, t => t != handler, handler);
  }

  /** `Unregister<T>` as the source writes it, run on the .NET Framework: the
      loop overwrites the first entry whose bag holds T while enumerating the
      dictionary, and the enumerator's next step throws InvalidOperationException
      (the indexer setter invalidates live enumerators there). */
  datatype UnregisterResult = Completed(bags: map<TypeRoutingKeyPair, HandlerBag>) | CollectionModified(bags: map<TypeRoutingKeyPair, HandlerBag>)

  function UnregisterAsWritten(keys: seq<TypeRoutingKeyPair>, bags: map<TypeRoutingKeyPair, HandlerBag>, handler: TypeId): (r: UnregisterResult)
    requires forall k | k in keys :: k in bags
    ensures r.bags.Keys == bags.Keys
    ensures r.Completed? ==> r.bags == bags
    ensures forall k | k in bags && r.bags[k] != bags[k] :: k in keys && r.bags[k] == Without(bags[k], handler)
    decreases |keys|
  {
    if keys == [] then Completed(bags)
    else if handler in bags[keys[0]] then CollectionModified(bags[keys[0] := Without(bags[keys[0]], handler)])
    else UnregisterAsWritten(keys[1..], bags, handler)
  }

  /** As written, unregistering a handler that is bound anywhere throws, and it
      strips the handler from one entry only. */
  lemma {:induction false} UnregisterAsWrittenThrowsWhenBound(keys: seq<TypeRoutingKeyPair>, bags: map<TypeRoutingKeyPair, HandlerBag>, handler: TypeId, k: TypeRoutingKeyPair)
    requires forall k' | k' in keys :: k' in bags
    requires k in keys && handler in bags[k]
    ensures UnregisterAsWritten(keys, bags, handler).CollectionModified?
    decreases |keys|
  {
    if handler !in bags[keys[0]] {
      assert k in keys[1..];
      UnregisterAsWrittenThrowsWhenBound(keys[1..], bags, handler, k);
    }
  }

  /** The concrete input: a handler bound under two keys. As written, the call
      throws and the second entry still holds the handler. */
  lemma UnregisterAsWrittenLeavesSecondBinding()
    ensures var a := TypeRoutingKeyPair(TypeId("IColourMessage"), "");
            var b := TypeRoutingKeyPair(TypeId("IComicBookCharacterMessage"), "");
            var h := TypeId("ColourMessageHandler");
            var r := UnregisterAsWritten([a, b], map[a := [h], b := [h]], h);
            r.CollectionModified? && h in r.bags[b]
  {
    var a := TypeRoutingKeyPair(TypeId("IColourMessage"), "");
    var b := TypeRoutingKeyPair(TypeId("IComicBookCharacterMessage"), "");
    var h := TypeId("ColourMessageHandler");
    var bags := map[a := [h], b := [h]];
    assert a != b;
    assert h in bags[a];
    var r := UnregisterAsWritten([a, b], bags, h);
    assert r == CollectionModified(bags[a := Without(bags[a], h)]);
  }

  // ---------------------------------------------------------------------------
  // The receiver

  class LoopbackReceiver {
    const binding: LoopbackBinding
    const assignable: (TypeId, TypeId) -> bool
    var capturedEndpoints: set<string>
    var events: seq<Event>

    ghost predicate Valid()
      reads this, binding
    {
      binding.Valid()
    }

    /** A receiver over the given binding table, with no endpoint claimed. */
    constructor (bindings: LoopbackBinding, assignable: (TypeId, TypeId) -> bool)
      requires bindings.Valid()
      ensures Valid()
      ensures binding == bindings && this.assignable == assignable
      ensures capturedEndpoints == {} && events == []
    {
      binding := bindings;
      this.assignable := assignable;
      capturedEndpoints := {};
      events := [];
    }

    /** `TakeFrom(endpoint, routingKey = "", bindings)`: the first call for an
        endpoint name claims it and binds like `Listen`; every later call for
        that name returns a DummyReceiver and binds nothing. */
    method TakeFrom(endpoint: string, bindings: seq<BindingPair>, routingKey: string := DefaultRoutingKey)
      returns (node: ReceiverNodeHandle)
      requires Valid()
      modifies this, binding
      ensures Valid()
      ensures events == old(events)
      ensures endpoint in old(capturedEndpoints) ==>
        node == DummyReceiver && capturedEndpoints == old(capturedEndpoints) && binding.Snapshot() == old(binding.Snapshot())
      ensures endpoint !in old(capturedEndpoints) ==>
        node == LoopbackReceiverNode(routingKey) && capturedEndpoints == old(capturedEndpoints) + {endpoint} &&
        binding.Snapshot() == BoundAll(old(binding.Snapshot()), routingKey, bindings)
    {
      if endpoint in capturedEndpoints {
        return DummyReceiver;
      }
      capturedEndpoints := capturedEndpoints + {endpoint};
      node := Listen(bindings, routingKey);
    }

    /** `Listen(routingKey = "", bindings)`: a new node whose registration binds
        every (message type, handler) of `bindings` under `routingKey`. */
    method Listen(bindings: seq<BindingPair>, routingKey: string := DefaultRoutingKey) returns (node: ReceiverNodeHandle)
      requires Valid()
      modifies binding
      ensures Valid()
      ensures node == LoopbackReceiverNode(routingKey)
      ensures binding.Snapshot() == BoundAll(old(binding.Snapshot()), routingKey, bindings)
    {
      node := LoopbackReceiverNode(routingKey);
      var i := 0;
      while i < |bindings|
        invariant 0 <= i <= |bindings|
        invariant Valid()
        invariant binding.Snapshot() == BoundAll(old(binding.Snapshot()), routingKey, bindings[..i])
      {
        assert bindings[..i + 1][..i] == bindings[..i];
        Bind(bindings[i].0, routingKey, bindings[i].1);
        i := i + 1;
      }
      assert bindings[..i] == bindings;
    }

    /** `Bind(msg, routingKey, handler)`: registers the key if absent, then adds
        the handler unless it is already bound there. */
    method Bind(msg: TypeId, routingKey: string, handler: TypeId)
      requires Valid()
      modifies binding
      ensures Valid()
      ensures binding.Snapshot() == Bound(old(binding.Snapshot()), TypeRoutingKeyPair(msg, routingKey), handler)
    {
      var key := TypeRoutingKeyPair(msg, routingKey);
      if !binding.IsMessageRegistered(key) {
        var _ := binding.AddMessageType(key);
      }
      var bag := binding.Get(key).value;
      if handler in bag {
        return;
      }
      binding.Set(key, bag + [handler]);
    }

    /** `Send(message, routingKey)`: every hook is told MessageSent, then every
        handler of every matching binding is invoked, each failure reported to
        the hooks and none stopping the handlers after it. */
    method Send(m: Message, routingKey: string, hooks: seq<HookId>, run: (TypeId, Message) -> HandlerOutcome)
      requires Valid()
      modifies this`events
      ensures events == old(events) + Delivery(binding.Snapshot(), m, routingKey, hooks, run, assignable)
    {
      NotifyHooks(hooks, MessageSent, m);
      FireCooperativeListeners(m, routingKey, hooks, run);
    }

    /** Calls one hook callback on every hook, in order. */
    method NotifyHooks(hooks: seq<HookId>, call: HookCall, m: Message)
      modifies this`events
      ensures events == old(events) + HookEvents(hooks, call, m)
    {
      var i := 0;
      while i < |hooks|
        invariant 0 <= i <= |hooks|
        invariant events == old(events) + HookEvents(hooks[..i], call, m)
      {
        events := events + [HookFired(hooks[i], call, m)];
        i := i + 1;
      }
      assert hooks[..i] == hooks;
    }

    /** The fan-out loop: for each matching key, for each handler, invoke it
        and report success or failure to every hook. */
    method FireCooperativeListeners(m: Message, routingKey: string, hooks: seq<HookId>, run: (TypeId, Message) -> HandlerOutcome)
      requires Valid()
      modifies this`events
      ensures events == old(events) + FanOut(binding.keys, binding.bags, m, routingKey, hooks, run, assignable)
    {
      var keys := binding.MessagesRegistered();
      var i := 0;
      while i < |keys|
        invariant 0 <= i <= |keys|
        invariant events == old(events) + FanOut(keys[..i], binding.bags, m, routingKey, hooks, run, assignable)
      {
        var key := keys[i];
        assert keys[..i + 1][..i] == keys[..i];
        if IsBindingMatching(key, m.runtimeType, routingKey, assignable) {
          var handlers := binding.Get(key).value;
          FireHandlers(m, handlers, hooks, run);
        }
        i := i + 1;
      }
      assert keys[..i] == keys;
    }

    /** One matching key's turn: each handler of its bag is invoked in bag
        order, and its success or failure is reported to every hook. */
    method FireHandlers(m: Message, handlers: HandlerBag, hooks: seq<HookId>, run: (TypeId, Message) -> HandlerOutcome)
      modifies this`events
      ensures events == old(events) + BindingEvents(hooks, m, handlers, run)
    {
      var j := 0;
      while j < |handlers|
        invariant 0 <= j <= |handlers|
        invariant events == old(events) + BindingEvents(hooks, m, handlers[..j], run)
      {
        var h := handlers[j];
        assert handlers[..j + 1][..j] == handlers[..j];
        events := events + [HandleInvoked(h, m)];
        match run(h, m) {
          case Handled =>
            NotifyHooks(hooks, MessageReceived, m);
          case Threw(inner) =>
            NotifyHooks(hooks, HandlerFailed(h, inner), m);
        }
        j := j + 1;
      }
      assert handlers[..j] == handlers;
    }

    /** `Unregister<T>`, as intended: T is removed from every bag, every key
        stays, and every other handler keeps its place and multiplicity. The
        loop runs over a snapshot of the keys, so overwriting an entry cannot
        disturb the enumeration. */
    method Unregister(handler: TypeId)
      requires Valid()
      modifies binding
      ensures Valid()
      ensures binding.keys == old(binding.keys)
      ensures binding.bags.Keys == old(binding.bags).Keys
      ensures forall k :: k in old(binding.bags) ==> binding.bags[k] == Without(old(binding.bags)[k], handler)
    {
      var keys := binding.MessagesRegistered();
      var i := 0;
      while i < |keys|
        invariant 0 <= i <= |keys|
        invariant Valid() && binding.keys == keys
        invariant forall j :: 0 <= j < i ==> binding.bags[keys[j]] == Without(old(binding.bags)[keys[j]], handler)
        invariant forall j :: i <= j < |keys| ==> binding.bags[keys[j]] == old(binding.bags)[keys[j]]
      {
        var bag := binding.Get(keys[i]).value;
        if handler in bag {
          binding.Set(keys[i], Without(bag, handler));
        } else {
          WithoutAbsent(bag, handler);
        }
        i := i + 1;
      }
    }
  }

  /** Removing a handler that is not in the bag leaves the bag as it is. */
  lemma {:induction false} WithoutAbsent(source: HandlerBag, handler: TypeId)
    requires handler !in source
    ensures Without(source, handler) == source
    decreases |source|
  {
    if source != [] {
      var init := source[..|source| - 1];
      assert source == init + [source[|source| - 1]];
      WithoutAbsent(init, handler);
    }
  }
}
