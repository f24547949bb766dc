/** Value types shared by the messaging core: results, type identities,
    messages and the calls made to the shared backoff sleeper. */
module Values {

  /** A value that may be missing (a null reference). */
  datatype Option<+T> = None | Some(value: T)

  /** The result of an operation that may throw. */
  datatype Result<+T, +E> = Ok(value: T) | Err(error: E)

  /** The outcome of an operation that returns nothing but may throw. */
  datatype Outcome<+E> = Pass | Fail(error: E)

  /** A .NET type (message type or handler type), identified by its full name. */
  datatype TypeId = TypeId(name: string)

  /** A message as the core sees it: its runtime type and its correlation identifier. */
  datatype Message = Message(runtimeType: TypeId, correlationId: string)

  /** The routing key used by every overload that takes none (`string.Empty`). */
  const DefaultRoutingKey: string := ""

  /** RabbitMQ exchange kinds; the core only ever asks for Topic. */
  datatype ExchangeType = Direct | Topic

  /** A call on the shared backoff sleeper (durations are not modelled). */
  datatype SleeperCall = SleepMore | Reset

  /** The hash combination of the source's generated equality members:
      `unchecked((first * 397) ^ second)` on 32-bit integers. */
  function CombineHashes(first: bv32, second: bv32): bv32
  {
    (first * 397) ^ second
  }

  /** True when no element of `s` occurs twice. */
  ghost predicate Distinct<T>(s: seq<T>)
  {
    forall i, j :: 0 <= i < j < |s| ==> s[i] != s[j]
  }
}
