# hello-arch-api gateway, modelled in Dafny

The gateway is a small FastAPI application. It accepts JSON payloads on
`POST /hello`, publishes each one to a Kafka topic, counts accepted events in a
Redis counter (`hello_api_requests`) and answers liveness checks on
`GET /healthz`. Its core is how the dependencies are set up and torn down, and
how each handler maps partial failure onto a fixed HTTP error.

This project models that core from `app/main.py`:

- `effects.dfy` (module `Effects`) holds the shared values. `Outcome` is the
  result of one call into an external client: it returns, or it raises an
  `Exception`, which the model keeps as an opaque `Error`. `Effect` is one external call (`producer.start()`, a sleep,
  `producer.stop()`, `send_and_wait`, `incr`), so that the order of calls can
  be stated.
- `store.dfy` (module `Store`) holds `MiniRedis`, the in-memory stand-in for
  Redis used in test mode. It is a class whose `kv` map is updated in place by
  `Incr`. Beside it are the pure functions `Count`, `Bumped` and `BumpedN`,
  with lemmas about repeated and interleaved increments.
- `retry.dfy` (module `StartupRetry`) holds the bounded startup retry on
  `producer.start()`. `RetryStart` is the loop itself. `Retry` is its
  specification, and the lemmas prove what the loop promises: at most 15 start
  calls, a stop at the first success, at most 14 sleeps and never one after
  the last attempt, and the last attempt's error re-raised.
- `handlers.dfy` (module `Handlers`) holds the single point per endpoint that
  turns dependency outcomes into a response: `{"status": "ok"}` or 500
  "redis unhealthy", and `{"ok": true}` or 500 "kafka produce failed".
- `gateway.dfy` (module `Gateway`) holds the application class `App`. Its
  fields are the two `app.state` handles and the lifespan phase. `Startup` and
  `Shutdown` are the two halves of the lifespan, and `Healthz` and `Hello` are
  the handlers. `TestModeSession` is a whole test-mode run: startup, a
  liveness check, then N submissions, which leave the counter at N.

Calls into the real Kafka producer and Redis client become parameters that
give their outcomes. The n-th `producer.start()` call has outcome `start(n)`.
The outcomes of `send_and_wait`, `ping`, `incr` and `stop` are one `Outcome`
each. The `testing` flag is a constructor parameter of `App`.

Two details of the code that the model keeps:

- `producer.start()` is tried at most 15 times, with at most 14 one-second
  sleeps. The 15th failure re-raises at once, with no sleep after it.
- Test mode has no teardown at all. The test branch of the lifespan returns
  right after its `yield`, so `DummyProducer.stop()` is never called.

A handler can run while an `app.state` attribute is unset, because the
lifespan has not installed it. The attribute lookup then raises inside the
handler's `try`, so the response is the handler's fixed 500. The model keeps
this case: a handle that is not installed is `None`.

## Model

| member | source | states |
|---|---|---|
| `Store.Bumped` | app/main.py:32 | one `incr(k)` adds `k` to the keys, sets its count to the previous count (0 when absent) plus one, and leaves every other key's count unchanged |
| `Store.BumpedNCounts` | app/main.py:31-32 | `n` successive increments of `k` raise its count by exactly `n` and leave every other key's count unchanged |
| `Store.FreshStoreCountsCalls` | app/main.py:31-32 | from the empty table of a fresh `MiniRedis`, `n` increments of `k` leave `k` at exactly `n` and create no other key |
| `Store.BumpedCommutes` | app/main.py:32 | increments of two keys give the same table in either order |
| `Store.MiniRedis.constructor` | app/main.py:31 | a new store is empty |
| `Store.MiniRedis.Incr` | app/main.py:32 | returns the previous count of `k` plus one (0 when absent), stores exactly that value, changes no other key, and keeps every stored count positive |
| `Store.MiniRedis.Ping` | app/main.py:33 | `ping()` always reports the store alive |
| `StartupRetry.RetryStart` | app/main.py:51-60 | the loop ends as the retry specification `Retry` says, and its calls are exactly `RetryEffects`: the start/sleep schedule up to the attempt it ended on |
| `StartupRetry.RetryFromCharacterised` | app/main.py:52-59 | from a given attempt on, the retry ends on the first attempt that succeeds, or aborts with attempt 15's error after every attempt failed |
| `StartupRetry.RetryStopsAtFirstSuccess` | app/main.py:52-59 | the producer starts if and only if one of attempts 1 to 15 succeeds, and then on the first successful attempt; an abort means all 15 attempts failed and re-raises the 15th attempt's error |
| `StartupRetry.RetryCallCounts` | app/main.py:52-60 | `start()` is called once per attempt made, at most 15 times, and the loop sleeps exactly once fewer, at most 14 times |
| `StartupRetry.RetryEndsWithStart` | app/main.py:56-60 | the last call the retry makes is the start call of its final attempt, never a sleep |
| `StartupRetry.SleepsFollowFailures` | app/main.py:56-60 | every sleep directly follows a failed start attempt and is directly followed by the next attempt's start call |
| `StartupRetry.ScheduleAt` | app/main.py:52-60 | the calls of attempts 1 to n alternate: the start call of attempt k+1 at position 2k, a 1-second sleep at position 2k+1 |
| `StartupRetry.ScheduleCounts` | app/main.py:52-60 | trying attempts 1 to n makes one start call per attempt and one sleep fewer |
| `Handlers.HealthzResponse` | app/main.py:76-81 | 200 `{"status": "ok"}` exactly when `ping()` returns; otherwise 500 with the fixed detail "redis unhealthy" |
| `Handlers.HelloResponse` | app/main.py:85-93 | 200 `{"ok": true}` exactly when the publish and the increment both return; otherwise 500 with the fixed detail "kafka produce failed" |
| `Gateway.App.constructor` | app/main.py:35-37 | `create_app(testing)` holds no producer or store handle until the lifespan runs |
| `Gateway.App.Startup` | app/main.py:39-62 | test mode installs a `DummyProducer` and a fresh, empty `MiniRedis`, makes no external call and succeeds; real mode installs the Redis client, runs the retry, and installs the producer and reaches startup-complete only if `start()` succeeded; otherwise it raises the retry's error and leaves the producer as it was |
| `Gateway.App.Shutdown` | app/main.py:63-69 | in real mode teardown calls `producer.stop()` once and succeeds whatever `Exception` it raises; in test mode it calls nothing; the handles stay in place |
| `Gateway.App.PingOutcome` | app/main.py:77 | `app.state.redis.ping()` returns exactly when a store is installed and it is the in-memory one (whose `ping`, line 33, always returns) or the real client's ping returns |
| `Gateway.App.SendOutcome` | app/main.py:87 | `app.state.producer.send_and_wait(...)` returns for the dummy producer (line 28), has the outcome `send` for the Kafka producer, and raises when no producer is installed |
| `Gateway.App.Healthz` | app/main.py:74-81 | `/healthz` answers `{"status": "ok"}` exactly when a store is installed and its ping returns (always, for `MiniRedis`); otherwise 500 "redis unhealthy"; it changes no state |
| `Gateway.App.Hello` | app/main.py:83-93 | `/hello` calls `send_and_wait(topic, payload)` first and `incr("hello_api_requests")` only after it returned; a failed publish leaves the counter untouched, a successful one raises the in-memory counter by exactly one; 200 `{"ok": true}` exactly when both calls returned, otherwise 500 "kafka produce failed" |
| `Gateway.TestModeSession` | app/main.py:39-93 | in test mode startup succeeds, `/healthz` answers `{"status": "ok"}`, every one of N submissions answers `{"ok": true}` and the counter ends at exactly N, for every sequence of outcomes the real clients' start, ping, send and incr calls could have had |

## Left out

- Logging (`log_info`, `log_error` and the logger set-up) is output only and is not modelled.
- The `/metrics` endpoint and the Prometheus instrumentator are library wiring and are not modelled.
- FastAPI app construction, routing and the `HTTPException` machinery are not modelled. A response is a value with a status and a detail.
- JSON serialisation of the payload is a library call. The payload is opaque bytes, and no schema is enforced.
- Configuration comes from environment variables in the source. The topic is a constructor parameter here, with the default `hello.events` as `Gateway.DefaultTopic`. The broker address and the Redis URL are not modelled.
- The real Kafka producer and Redis client are network clients whose code is not visible. Only their outcomes are modelled. The value of the remote Redis counter is not modelled; `Gateway.App.Hello` records the `incr` call and uses its outcome.
- The 1-second sleep is recorded as an effect with its length. Time itself is not modelled.
- `Outcome.Failure` stands only for an exception that is a subclass of `Exception`, which is all that the `except Exception` clauses catch. Exceptions outside that class (`asyncio.CancelledError`, `KeyboardInterrupt`, `SystemExit`) escape the retry loop, the teardown and the handlers; the model does not represent them, so its "teardown always succeeds" and "any failure gives the fixed 500" hold only for `Exception`s.
- The imports of `redis` and `aiokafka`, `redis.Redis.from_url` and the `AIOKafkaProducer(...)` constructor are assumed not to raise: in real mode `Gateway.App.Startup` always installs the Redis client and always enters the retry.
- Async scheduling and concurrency between in-flight requests are not modelled. `Store.BumpedCommutes` states only that the final counts do not depend on the order of increments.
