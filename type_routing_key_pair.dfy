/** The (message type, routing key) pair that keys the loopback binding table.
    The source is a class with two readonly fields and hand-written value
    equality; as a datatype its equality is value equality by construction, and
    the members below model the source's Equals, ==, != and GetHashCode on top of
    it, with `None` standing for a null reference. */
module TypeRoutingKeyPairs {
  import opened Values

  /** A RabbitMQ exchange binding: the exchange name (message type) and its routing key. */
  datatype TypeRoutingKeyPair = TypeRoutingKeyPair(msgType: TypeId, routingKey: string)

  /** What an argument of static type `object` can hold: null, a pair, or an
      object of some other runtime type. */
  datatype Obj = Null | PairObj(pair: TypeRoutingKeyPair) | OtherObj(runtimeType: TypeId)

  /** `Equals(TypeRoutingKeyPair other)`: false for null, otherwise ordinal
      equality of the routing keys and equality of the types. */
  function Equals(self: TypeRoutingKeyPair, other: Option<TypeRoutingKeyPair>): (r: bool)
    ensures r <==> other == Some(self)
  {
    match other
    case None => false
    case Some(o) => o.routingKey == self.routingKey && o.msgType == self.msgType
  }

  /** `Equals(object obj)`: false for null and for an object whose runtime type
      is not TypeRoutingKeyPair, otherwise the typed Equals. */
  function EqualsObject(self: TypeRoutingKeyPair, obj: Obj): (r: bool)
    ensures r <==> obj == PairObj(self)
    ensures obj.Null? || obj.OtherObj? ==> !r
  {
    match obj
    case Null => false
    case OtherObj(_) => false
    case PairObj(p) => Equals(self, Some(p))
  }

  /** `operator ==`, which is `object.Equals(left, right)`: two nulls are equal,
      one null is unequal, otherwise the virtual Equals(object). */
  function OpEquality(left: Option<TypeRoutingKeyPair>, right: Option<TypeRoutingKeyPair>): (r: bool)
    ensures r <==> left == right
  {
    if left.None? && right.None? then true
    else if left.None? || right.None? then false
    else EqualsObject(left.value, PairObj(right.value))
  }

  /** `operator !=`: the negation of `object.Equals(left, right)`. */
  function OpInequality(left: Option<TypeRoutingKeyPair>, right: Option<TypeRoutingKeyPair>): (r: bool)
    ensures r <==> left != right
    ensures r == !OpEquality(left, right)
  {
    !OpEquality(left, right)
  }

  /** `GetHashCode`: `unchecked((routingKeyHash * 397) ^ typeHash)` on 32-bit
      integers; the string and type hashes are the runtime's and are given. */
  function HashCode(p: TypeRoutingKeyPair, stringHash: string -> bv32, typeHash: TypeId -> bv32): bv32
  {
    CombineHashes(stringHash(p.routingKey), typeHash(p.msgType))
  }

  /** Pairs that are Equals have the same hash code, whatever the runtime's hashes. */
  lemma EqualPairsHashAlike(p: TypeRoutingKeyPair, q: TypeRoutingKeyPair, stringHash: string -> bv32, typeHash: TypeId -> bv32)
    requires Equals(p, Some(q))
    ensures HashCode(p, stringHash, typeHash) == HashCode(q, stringHash, typeHash)
  {
  }

  /** The `Type` and `RoutingKey` properties return the constructor's arguments. */
  lemma AccessorsReturnArguments(t: TypeId, routingKey: string)
    ensures TypeRoutingKeyPair(t, routingKey).msgType == t
    ensures TypeRoutingKeyPair(t, routingKey).routingKey == routingKey
  {
  }
}
