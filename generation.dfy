/**
 * The language-model call, seen from the orchestration code: an outcome that is
 * either reply text or a raised exception, together with how long the call took.
 * The model clients and the router behind it are not part of this model.
 */
module Generation {

  /** What one call produced: the generated text, or the message of the exception it raised. */
  datatype Reply = Text(text: string) | Raised(error: string)

  /**
   * One call's reply and its latency in the source's time units. A latency of 0
   * means the call returned without suspending the event loop.
   */
  datatype Outcome = Outcome(reply: Reply, latency: nat)

  /** `asyncio.wait_for(call, timeout)` gives up on the call. */
  predicate ExceedsTimeout(o: Outcome, timeout: int) {
    o.latency > timeout
  }
}
