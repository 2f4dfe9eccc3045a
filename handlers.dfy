/** The HTTP contract of the two request handlers: which outcome of the
    dependency calls yields which response. Any failure is folded into one
    fixed 500 response per endpoint; the underlying error goes only to the
    log and never into the response. */
module Handlers {
  import opened Effects

  /** The JSON bodies of the success responses. */
  datatype Body =
    | StatusOk      // {"status": "ok"}
    | Acknowledged  // {"ok": true}

  /** A response: 200 with a body, or an `HTTPException` turned into its
      status code and `{"detail": detail}` body. */
  datatype Response = Ok(body: Body) | HttpError(status: nat, detail: string)

  const RedisUnhealthy: string := "redis unhealthy"
  const ProduceFailed: string := "kafka produce failed"

  /** The counter that every accepted event increments. */
  const CounterKey: string := "hello_api_requests"

  /** `GET /healthz`: 200 `{"status": "ok"}` when `ping()` returns, 500
      "redis unhealthy" when it raises. */
  function HealthzResponse(ping: Outcome): (r: Response)
    ensures r.Ok? <==> ping.Success?
    ensures r.Ok? ==> r.body == StatusOk
    ensures r.HttpError? ==> r.status == 500 && r.detail == RedisUnhealthy
  {
    match ping
    case Success => Ok(StatusOk)
    case Failure(_) => HttpError(500, RedisUnhealthy)
  }

  /** `POST /hello`: 200 `{"ok": true}` when the publish and then the
      increment both return; 500 "kafka produce failed" when either raises.
      The increment is only attempted after a successful publish, so its
      outcome matters only then. */
  function HelloResponse(send: Outcome, incr: Outcome): (r: Response)
    ensures r.Ok? <==> send.Success? && incr.Success?
    ensures r.Ok? ==> r.body == Acknowledged
    ensures r.HttpError? ==> r.status == 500 && r.detail == ProduceFailed
  {
    match send
    case Failure(_) => HttpError(500, ProduceFailed)
    case Success =>
      match incr
      case Failure(_) => HttpError(500, ProduceFailed)
      case Success => Ok(Acknowledged)
  }
}
