/** The application built by `create_app(testing)`: the two process-wide
    dependency handles in `app.state`, the lifespan that installs them and
    tears the producer down, and the `/healthz` and `/hello` handlers that
    use them. Calls into the real Kafka producer and Redis client are
    replaced by their outcomes, given as parameters. */
module Gateway {
  import opened Effects
  import opened Store
  import opened StartupRetry
  import opened Handlers

  datatype Option<T> = None | Some(value: T)

  /** The publisher handle in `app.state.producer`. */
  datatype Producer = DummyProducer | KafkaProducer

  /** The store-client handle in `app.state.redis`. */
  datatype RedisHandle = InMemory(db: MiniRedis) | RedisClient

  /** Where the application is in its lifespan. */
  datatype Phase = Created | Serving | StartupFailed | Stopped

  const DefaultTopic: string := "hello.events"

  class App {
    const testing: bool
    const topic: string
    /** `None` while the lifespan has not set the attribute. */
    var producer: Option<Producer>
    var redis: Option<RedisHandle>
    var phase: Phase

    /** `create_app(testing)`: the state holds no handles until the lifespan
        runs. */
    constructor (testing: bool, topic: string)
      ensures this.testing == testing && this.topic == topic
      ensures producer == None && redis == None && phase == Created
    {
      this.testing := testing;
      this.topic := topic;
      producer := None;
      redis := None;
      phase := Created;
    }

    /** The objects a handler may update: the in-memory store, if installed. */
    function StoreFootprint(): set<object>
      reads this
    {
      if redis.Some? && redis.value.InMemory? then {redis.value.db} else {}
    }

    /** Startup half of the lifespan. Test mode installs a `DummyProducer`
        and a fresh, empty `MiniRedis`, makes no external call and cannot
        fail. Real mode installs the Redis client, then runs the bounded
        retry on `producer.start()` (outcome of attempt n: `start(n)`); only
        after a successful start is the producer installed and startup
        complete, otherwise the last attempt's error is raised. */
    method Startup(start: nat -> Outcome) returns (r: Outcome, effects: seq<Effect>)
      modifies this
      ensures testing ==>
        && r == Success && effects == []
        && producer == Some(DummyProducer)
        && redis.Some? && redis.value.InMemory? && fresh(redis.value.db)
        && redis.value.db.kv == map[]
        && phase == Serving
      ensures !testing ==>
        && redis == Some(RedisClient)
        && effects == RetryEffects(start)
        && (r.Success? <==> Retry(start).Started?)
      ensures !testing && r.Success? ==> producer == Some(KafkaProducer) && phase == Serving
      ensures !testing && r.Failure? ==>
        && Retry(start) == Aborted(r.error)
        && producer == old(producer) && phase == StartupFailed
    {
      if testing {
        producer := Some(DummyProducer);
        var db := new MiniRedis();
        redis := Some(InMemory(db));
        phase := Serving;
        r, effects := Success, [];
        return;
      }
      redis := Some(RedisClient);
      var s;
      s, effects := RetryStart(start);
      match s {
        case Started(_) =>
          producer := Some(KafkaProducer);
          phase := Serving;
          r := Success;
        case Aborted(e) =>
          phase := StartupFailed;
          r := Failure(e);
      }
    }

    /** Teardown half of the lifespan, reached only after startup completed.
        Real mode calls `producer.stop()` and swallows whatever `Exception`
        it raises (outcome `stop`); test mode has no teardown. Either way
        teardown succeeds and leaves the handles in place. */
    method Shutdown(stop: Outcome) returns (r: Outcome, effects: seq<Effect>)
      requires phase == Serving
      modifies this
      ensures r == Success
      ensures effects == if testing then [] else [ProducerStop]
      ensures phase == Stopped && producer == old(producer) && redis == old(redis)
    {
      effects := [];
      if !testing {
        effects := [ProducerStop];
        match stop {
          case Success =>
          case Failure(_) =>  // swallowed: the process is exiting anyway
        }
      }
      phase := Stopped;
      r := Success;
    }

    /** What `app.state.redis.ping()` does: it raises when the attribute is
        unset, returns for the in-memory store (whose `Ping` never raises),
        and has the outcome `remote` for the real client. */
    function PingOutcome(remote: Outcome): (o: Outcome)
      reads this
      ensures o.Success? <==> redis.Some? && (redis.value.InMemory? || remote.Success?)
    {
      match redis
      case None => Failure(MissingAttribute)
      case Some(InMemory(db)) => assert db.Ping(); Success
      case Some(RedisClient) => remote
    }

    /** `GET /healthz`, with `remotePing` the outcome of the real client's
        `ping()`. It reads the state and changes nothing. */
    function Healthz(remotePing: Outcome): (r: Response)
      reads this
      ensures r.Ok? <==> redis.Some? && (redis.value.InMemory? || remotePing.Success?)
      ensures r.Ok? ==> r.body == StatusOk
      ensures r.HttpError? ==> r == HttpError(500, RedisUnhealthy)
    {
      HealthzResponse(PingOutcome(remotePing))
    }

    /** What `app.state.producer.send_and_wait(...)` does: it raises when
        the attribute is unset (before any send), returns for the dummy
        producer, and has the outcome `send` for the Kafka producer. */
    function SendOutcome(send: Outcome): (o: Outcome)
      reads this
      ensures o.Success? <==> producer.Some? && (producer.value.DummyProducer? || send.Success?)
      ensures producer.None? ==> o == Failure(MissingAttribute)
      ensures producer == Some(KafkaProducer) ==> o == send
    {
      match producer
      case None => Failure(MissingAttribute)
      case Some(DummyProducer) => Success
      case Some(KafkaProducer) => send
    }

    /** `POST /hello` with the serialised body `payload`: publish to `topic`
        and wait, then increment `CounterKey`; `send` and `incr` are the
        outcomes of the real producer's send and the real client's incr.
        The increment happens only after a successful publish, so a failed
        publish leaves the counter untouched; any failure gives 500
        "kafka produce failed". */
    method Hello(payload: seq<byte>, send: Outcome, incr: Outcome) returns (r: Response, effects: seq<Effect>)
      modifies StoreFootprint()
      ensures r.Ok? <==> SendOutcome(send).Success? && redis.Some? && (redis.value.InMemory? || incr.Success?)
      ensures r.Ok? ==> r.body == Acknowledged
      ensures r.HttpError? ==> r == HttpError(500, ProduceFailed)
      ensures effects ==
        if producer.None? then []
        else if !SendOutcome(send).Success? || redis.None? then [SendAndWait(topic, payload)]
        else [SendAndWait(topic, payload), Incr(CounterKey)]
      ensures redis.Some? && redis.value.InMemory? ==>
        redis.value.db.kv ==
          if SendOutcome(send).Success? then Bumped(old(redis.value.db.kv), CounterKey) else old(redis.value.db.kv)
    {
      effects := [];
      var sent := SendOutcome(send);
      if producer.Some? {
        effects := [SendAndWait(topic, payload)];
      }
      var counted := Failure(MissingAttribute);
      if sent.Success? {
        match redis {
          case None =>
          case Some(InMemory(db)) =>
            effects := effects + [Incr(CounterKey)];
            var _ := db.Incr(CounterKey);
            counted := Success;
          case Some(RedisClient) =>
            effects := effects + [Incr(CounterKey)];
            counted := incr;
        }
      }
      r := HelloResponse(sent, counted);
    }
  }

  /** A test-mode session: start the application, check liveness, then
      submit every payload in turn. Startup succeeds, `/healthz` answers
      `{"status": "ok"}`, every submission answers `{"ok": true}`, and the
      counter ends at the number of submissions, whatever outcomes the real
      clients would have had: `start(n)` for the n-th start attempt,
      `remotePing` for the ping, and `sends(i)` and `incrs(i)` for the
      send and the increment of the i-th submission. */
  method TestModeSession(payloads: seq<seq<byte>>, start: nat -> Outcome, remotePing: Outcome,
                         sends: nat -> Outcome, incrs: nat -> Outcome)
    returns (started: Outcome, health: Response, responses: seq<Response>, count: int)
    ensures started == Success
    ensures health == Ok(StatusOk)
    ensures |responses| == |payloads|
    ensures forall i :: 0 <= i < |responses| ==> responses[i] == Ok(Acknowledged)
    ensures count == |payloads|
  {
    var app := new App(true, DefaultTopic);
    var ignored;
    started, ignored := app.Startup(start);
    health := app.Healthz(remotePing);
    var db := app.redis.value.db;
    responses := [];
    var i := 0;
    while i < |payloads|
      invariant 0 <= i <= |payloads|
      invariant fresh(db)
      invariant app.producer == Some(DummyProducer) && app.redis == Some(InMemory(db))
      invariant db.kv == BumpedN(map[], CounterKey, i)
      invariant |responses| == i
      invariant forall j :: 0 <= j < i ==> responses[j] == Ok(Acknowledged)
    {
      var r;
      r, ignored := app.Hello(payloads[i], sends(i), incrs(i));
      responses := responses + [r];
      i := i + 1;
    }
    FreshStoreCountsCalls(CounterKey, |payloads|);
    count := Count(db.kv, CounterKey);
  }
}
