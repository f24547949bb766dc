/** The loopback binding table: a dictionary from (message type, routing key)
    to the bag of handler types bound to it. The dictionary never removes a key,
    so its enumeration order is the order in which keys were added; the model
    keeps that order in `keys` and the handler bags in `bags`. */
module LoopbackBindings {
  import opened Values
  import opened TypeRoutingKeyPairs

  /** The handler types bound to one key (a ConcurrentBag, kept as a sequence). */
  type HandlerBag = seq<TypeId>

  /** A snapshot of the table: keys in enumeration order and the bag of each key. */
  datatype Table = Table(keys: seq<TypeRoutingKeyPair>, bags: map<TypeRoutingKeyPair, HandlerBag>)
  {
    /** Keys are distinct and are exactly the keys of the bag map. */
    ghost predicate WellFormed()
    {
      Distinct(keys) && forall k :: k in bags <==> k in keys
    }
  }

  /** The table's errors: `Dictionary.Add` on a present key, and the indexer
      getter on an absent key. */
  datatype BindingError = DuplicateKey(key: TypeRoutingKeyPair) | KeyNotFound(key: TypeRoutingKeyPair)

  /** The table after `Add(key, bag)` or `this[key] = bag`: an absent key is
      appended to the enumeration order, a present one keeps its place. */
  function Put(t: Table, key: TypeRoutingKeyPair, bag: HandlerBag): (r: Table)
    requires t.WellFormed()
    ensures r.WellFormed()
    ensures r.bags == t.bags[key := bag]
    ensures key in t.bags ==> r.keys == t.keys
    ensures key !in t.bags ==> r.keys == t.keys + [key]
  {
    Table(if key in t.bags then t.keys else t.keys + [key], t.bags[key := bag])
  }

  class LoopbackBinding {
    var keys: seq<TypeRoutingKeyPair>
    var bags: map<TypeRoutingKeyPair, HandlerBag>

    ghost predicate Valid()
      reads this
    {
      Snapshot().WellFormed()
    }

    /** The table's current contents as a value. */
    function Snapshot(): Table
      reads this
    {
      Table(keys, bags)
    }

    /** A new table has no registered keys. */
    constructor ()
      ensures Valid()
      ensures keys == [] && bags == map[]
    {
      keys := [];
      bags := map[];
    }

    /** `IsMessageRegistered`: true exactly for keys that were added; never fails. */
    predicate IsMessageRegistered(key: TypeRoutingKeyPair)
      reads this
      requires Valid()
      ensures IsMessageRegistered(key) <==> key in keys
    {
      key in bags
    }

    /** `ForMessage<T>(routingKey = "")`: the handlers of exactly (T, routingKey),
        or none when that pair was never registered. */
    function ForMessage(msgType: TypeId, routingKey: string := DefaultRoutingKey): (r: HandlerBag)
      reads this
      requires Valid()
      ensures TypeRoutingKeyPair(msgType, routingKey) in keys ==> r == bags[TypeRoutingKeyPair(msgType, routingKey)]
      ensures TypeRoutingKeyPair(msgType, routingKey) !in keys ==> r == []
    {
      var key := TypeRoutingKeyPair(msgType, routingKey);
      if key in bags then bags[key] else []
    }

    /** The indexer getter: the bag of a registered key; an absent key throws. */
    function Get(key: TypeRoutingKeyPair): (r: Result<HandlerBag, BindingError>)
      reads this
      requires Valid()
      ensures r.Ok? <==> key in keys
      ensures r.Ok? ==> r.value == bags[key]
      ensures r.Err? ==> r.error == KeyNotFound(key)
    {
      if key in bags then Ok(bags[key]) else Err(KeyNotFound(key))
    }

    /** `MessagesRegistered`: every registered key, once each. */
    function MessagesRegistered(): (r: seq<TypeRoutingKeyPair>)
      reads this
      requires Valid()
      ensures Distinct(r)
      ensures forall k :: k in r <==> IsMessageRegistered(k)
    {
      keys
    }

    /** The indexer setter: afterwards `key` yields `bag` and every other key
        keeps its bag; an absent key is added. */
    method Set(key: TypeRoutingKeyPair, bag: HandlerBag)
      requires Valid()
      modifies this
      ensures Valid()
      ensures Snapshot() == Put(old(Snapshot()), key, bag)
    {
      if key !in bags {
        keys := keys + [key];
      }
      bags := bags[key := bag];
    }

    /** `AddMessageType`: registers an absent key with an empty bag; a key that
        is already registered is a duplicate-key error and changes nothing. */
    method AddMessageType(key: TypeRoutingKeyPair) returns (r: Outcome<BindingError>)
      requires Valid()
      modifies this
      ensures Valid()
      ensures r.Fail? <==> key in old(keys)
      ensures r.Fail? ==> r.error == DuplicateKey(key) && Snapshot() == old(Snapshot())
      ensures r.Pass? ==> Snapshot() == Put(old(Snapshot()), key, [])
    {
      if key in bags {
        return Fail(DuplicateKey(key));
      }
      keys := keys + [key];
      bags := bags[key := []];
      r := Pass;
    }
  }
}
