/** The loopback sender: a thin front for the loopback receiver. It holds one
    readonly reference, set in its constructor, and forwards every send. */
module LoopbackSenders {
  import opened Values
  import opened LoopbackBindings
  import opened LoopbackReceivers

  /** The receiver a sender is constructed with: the loopback receiver, or a
      receiver of another kind (the broker-backed one). */
  datatype AnyReceiver = LoopbackMode(receiver: LoopbackReceiver) | OtherReceiver

  /** Constructing a loopback sender outside loopback mode. */
  datatype SenderError = NotInLoopbackMode

  datatype LoopbackSender = LoopbackSender(receiver: LoopbackReceiver)
  {
    /** `SendMessage(message, routingKey = "")`: hands the message and the
        routing key, unchanged, to the receiver's `Send`. */
    method SendMessage(m: Message, hooks: seq<HookId>, run: (TypeId, Message) -> HandlerOutcome, routingKey: string := DefaultRoutingKey)
      requires receiver.Valid()
      modifies receiver`events
      ensures receiver.events == old(receiver.events) + Delivery(receiver.binding.Snapshot(), m, routingKey, hooks, run, receiver.assignable)
    {
      receiver.Send(m, routingKey, hooks, run);
    }
  }

  /** The constructor: `receiver as ILoopbackReceiver`, failing when the given
      receiver is not the loopback one. */
  function NewLoopbackSender(r: AnyReceiver): (s: Result<LoopbackSender, SenderError>)
    ensures s.Ok? <==> r.LoopbackMode?
    ensures s.Ok? ==> s.value.receiver == r.receiver
    ensures s.Err? ==> s.error == NotInLoopbackMode
  {
    match r
    case LoopbackMode(receiver) => Ok(LoopbackSender(receiver))
    case OtherReceiver => Err(NotInLoopbackMode)
  }
}
