/** Outcomes of the calls the benchmark controller makes into the platform's
    management server (looking up the queue depth, starting and stopping the
    message-driven endpoint). Those calls are not modelled; only whether they
    succeeded is. */
module Results {

  datatype Option<+T> = None | Some(value: T)

  /** Why a controller operation ended with an exception. */
  datatype Fault =
    | QueueUnavailable     // the broker queue could not be found or read
    | EndpointUnavailable  // the endpoint control bean could not be found or invoked

  /** How a void controller operation returned: normally, or by throwing. */
  datatype Outcome = Pass | Fail(fault: Fault)

  /** A value, or the fault that stopped it from being computed. */
  datatype Result<+T> = Success(value: T) | Failure(fault: Fault)
}
