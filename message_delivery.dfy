/** The task handed to the delivery queue (lib/orchestrated/message_delivery.rb:1-12)
    and the record of the foreign call `perform` makes. */
module MessageDelivery {
  import opened Wrappers
  import opened Values

  datatype Delivery = Delivery(
    orchestrated: Value,      // the target object
    methodName: Value,
    args: Value,
    orchestrationId: Value)

  datatype Error = ArgumentsRequired

  /** The constructor: every one of the four arguments must be truthy. */
  function New(orchestrated: Value, methodName: Value, args: Value, orchestrationId: Value)
    : (r: Result<Delivery, Error>)
    ensures r.Ok? <==>
              Truthy(orchestrated) && Truthy(methodName) && Truthy(args) && Truthy(orchestrationId)
    ensures r.Ok? ==> r.value == Delivery(orchestrated, methodName, args, orchestrationId)
    ensures r.Err? ==> r.error == ArgumentsRequired
  {
    if Truthy(orchestrated) && Truthy(methodName) && Truthy(args) && Truthy(orchestrationId)
    then Ok(Delivery(orchestrated, methodName, args, orchestrationId))
    else Err(ArgumentsRequired)
  }

  /** The orchestration a delivery reports to, or -1 when it names none. */
  function Owner(d: Delivery): int {
    match d.orchestrationId
    case Int(i) => i
    case _ => -1
  }

  /** One call `receiver.send(methodName, *args)`, with the orchestration the
      receiver's `orchestration` attribute was bound to during the call. */
  datatype Invocation = Invocation(receiver: Value, methodName: Value, args: Value, bound: Option<nat>)
}
