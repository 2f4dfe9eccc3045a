/** Values shared by the whole gateway model: bytes, the outcome of a call
    into an external client, and the trace entries that record which external
    calls were made and in what order. */
module Effects {

  newtype byte = b: int | 0 <= b < 256

  /** An exception raised by an external client. Its content is opaque to the
      gateway: it is only logged or re-raised. */
  datatype Error = Error(message: string)

  /** The outcome of one call into an external client (Kafka producer, Redis
      client): it returns normally, or it raises an `Exception`, which the
      gateway's `except Exception` clauses catch. */
  datatype Outcome = Success | Failure(error: Error)

  /** One external call made by the gateway, in the order it is made. */
  datatype Effect =
    | ProducerStart(attempt: nat)                  // producer.start(), 1-based attempt number
    | Sleep(seconds: nat)                          // asyncio.sleep(seconds) between start attempts
    | ProducerStop                                 // producer.stop() at teardown
    | SendAndWait(topic: string, value: seq<byte>) // producer.send_and_wait(topic, msg)
    | Incr(key: string)                            // redis.incr(key)

  /** The error Python raises when a handler reads an `app.state` attribute
      that the lifespan has not set. */
  const MissingAttribute: Error := Error("'State' object has no attribute")
}
