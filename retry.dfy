/** The bounded retry that brings the Kafka producer up at startup in real
    mode: up to `MaxAttempts` calls of `producer.start()`, stopping at the
    first one that returns, sleeping `RetryDelay` seconds after each failed
    attempt but the last, and re-raising the last attempt's error. The
    outcome of the n-th `start()` call is the oracle value `start(n)`. */
module StartupRetry {
  import opened Effects

  const MaxAttempts: nat := 15
  const RetryDelay: nat := 1

  /** How the retry ends: the producer came up on `attempt`, or every attempt
      failed and `error` (the last attempt's) is re-raised. */
  datatype Startup = Started(attempt: nat) | Aborted(error: Error)

  /** The attempt the retry ended on. */
  function LastAttempt(s: Startup): nat {
    match s
    case Started(n) => n
    case Aborted(_) => MaxAttempts
  }

  /** How the retry ends when run from attempt `attempt` on. */
  function RetryFrom(start: nat -> Outcome, attempt: nat): Startup
    requires 1 <= attempt <= MaxAttempts
    decreases MaxAttempts - attempt
  {
    match start(attempt)
    case Success => Started(attempt)
    case Failure(e) =>
      if attempt == MaxAttempts then Aborted(e) else RetryFrom(start, attempt + 1)
  }

  /** How the whole startup retry ends. */
  function Retry(start: nat -> Outcome): Startup {
    RetryFrom(start, 1)
  }

  /** The external calls made when attempts 1 to `n` are tried: a start call
      for each, with a sleep after every one but the last. */
  function Schedule(n: nat): seq<Effect>
    requires n >= 1
  {
    if n == 1 then [ProducerStart(1)]
    else Schedule(n - 1) + [Sleep(RetryDelay), ProducerStart(n)]
  }

  /** The external calls of the whole startup retry. */
  function RetryEffects(start: nat -> Outcome): seq<Effect> {
    Schedule(LastAttempt(Retry(start)))
  }

  /** Number of `producer.start()` calls in a trace. */
  function Starts(effects: seq<Effect>): nat {
    if effects == [] then 0
    else Starts(effects[..|effects| - 1]) + (if effects[|effects| - 1].ProducerStart? then 1 else 0)
  }

  /** Number of sleeps in a trace. */
  function Sleeps(effects: seq<Effect>): nat {
    if effects == [] then 0
    else Sleeps(effects[..|effects| - 1]) + (if effects[|effects| - 1].Sleep? then 1 else 0)
  }

  /** From attempt `attempt` on, the retry ends on the first attempt that
      succeeds, and aborts with the last attempt's error only when every
      attempt failed. */
  lemma {:induction false} RetryFromCharacterised(start: nat -> Outcome, attempt: nat)
    requires 1 <= attempt <= MaxAttempts
    ensures attempt <= LastAttempt(RetryFrom(start, attempt)) <= MaxAttempts
    ensures forall j :: attempt <= j < LastAttempt(RetryFrom(start, attempt)) ==> start(j).Failure?
    ensures RetryFrom(start, attempt).Started? ==> start(RetryFrom(start, attempt).attempt).Success?
    ensures RetryFrom(start, attempt).Aborted? ==>
      start(MaxAttempts) == Failure(RetryFrom(start, attempt).error)
    decreases MaxAttempts - attempt
  {
    if start(attempt).Failure? && attempt < MaxAttempts {
      RetryFromCharacterised(start, attempt + 1);
    }
  }

  /** The producer comes up exactly when some attempt among the first
      `MaxAttempts` succeeds, and then on the first such attempt; startup
      aborts only after all `MaxAttempts` attempts failed, re-raising the
      last attempt's error. */
  lemma RetryStopsAtFirstSuccess(start: nat -> Outcome)
    ensures Retry(start).Started? <==> exists j :: 1 <= j <= MaxAttempts && start(j).Success?
    ensures Retry(start).Started? ==>
      var n := Retry(start).attempt;
      && 1 <= n <= MaxAttempts && start(n).Success?
      && forall j :: 1 <= j < n ==> start(j).Failure?
    ensures Retry(start).Aborted? ==>
      && (forall j :: 1 <= j <= MaxAttempts ==> start(j).Failure?)
      && start(MaxAttempts) == Failure(Retry(start).error)
  {
    RetryFromCharacterised(start, 1);
    var s := Retry(start);
    if s.Started? {
      assert 1 <= s.attempt <= MaxAttempts && start(s.attempt).Success?;
    }
  }

  /** Position by position, the schedule alternates start calls with
      sleeps of `RetryDelay`: position `2 * k` is the start call of attempt
      `k + 1`, position `2 * k + 1` a sleep. */
  lemma {:induction false} ScheduleAt(n: nat, k: nat)
    requires n >= 1
    ensures |Schedule(n)| == 2 * n - 1
    ensures k < n ==> Schedule(n)[2 * k] == ProducerStart(k + 1)
    ensures k + 1 < n ==> Schedule(n)[2 * k + 1] == Sleep(RetryDelay)
    decreases n
  {
    if n > 1 {
      ScheduleAt(n - 1, k);
    }
  }

  /** Trying attempts 1 to `n` calls `start()` once per attempt and sleeps
      once fewer. */
  lemma {:induction false} ScheduleCounts(n: nat)
    requires n >= 1
    ensures Starts(Schedule(n)) == n
    ensures Sleeps(Schedule(n)) == n - 1
    decreases n
  {
    if n > 1 {
      ScheduleCounts(n - 1);
      var s := Schedule(n);
      assert s[..|s| - 1] == Schedule(n - 1) + [Sleep(RetryDelay)];
      assert s[..|s| - 1][..|s| - 2] == Schedule(n - 1);
    }
  }

  /** `start()` is called once per attempt made, at most `MaxAttempts` times,
      and the loop sleeps once fewer, at most `MaxAttempts - 1` times. */
  lemma RetryCallCounts(start: nat -> Outcome)
    ensures Starts(RetryEffects(start)) == LastAttempt(Retry(start)) <= MaxAttempts
    ensures Sleeps(RetryEffects(start)) == LastAttempt(Retry(start)) - 1 <= MaxAttempts - 1
  {
    RetryFromCharacterised(start, 1);
    ScheduleCounts(LastAttempt(Retry(start)));
  }

  /** The last call the retry makes is the start call of the attempt it
      ended on: there is no sleep after the final attempt. */
  lemma RetryEndsWithStart(start: nat -> Outcome)
    ensures RetryEffects(start) != []
    ensures RetryEffects(start)[|RetryEffects(start)| - 1] == ProducerStart(LastAttempt(Retry(start)))
  {
    RetryFromCharacterised(start, 1);
  }

  /** In a schedule, every sleep lies between the start call of one attempt
      and the start call of the next. */
  lemma ScheduleSleepsBetweenStarts(n: nat, i: nat)
    requires n >= 1
    requires i < |Schedule(n)| && Schedule(n)[i].Sleep?
    ensures 0 < i && i + 1 < |Schedule(n)|
    ensures Schedule(n)[i - 1] == ProducerStart((i + 1) / 2)
    ensures (i + 1) / 2 < n
    ensures Schedule(n)[i + 1] == ProducerStart((i + 1) / 2 + 1)
  {
    var k := i / 2;
    assert i == 2 * k || i == 2 * k + 1;
    ScheduleAt(n, k);
    assert i == 2 * k + 1;
    ScheduleAt(n, k + 1);
  }

  /** A sleep happens only right after a failed start attempt, and the next
      attempt always follows it. */
  lemma SleepsFollowFailures(start: nat -> Outcome)
    ensures var effects := RetryEffects(start);
      forall i :: 0 <= i < |effects| && effects[i].Sleep? ==>
        && 0 < i && i + 1 < |effects|
        && effects[i - 1].ProducerStart? && start(effects[i - 1].attempt).Failure?
        && effects[i + 1] == ProducerStart(effects[i - 1].attempt + 1)
  {
    var effects := RetryEffects(start);
    var last := LastAttempt(Retry(start));
    RetryFromCharacterised(start, 1);
    forall i | 0 <= i < |effects| && effects[i].Sleep?
      ensures && 0 < i && i + 1 < |effects|
              && effects[i - 1].ProducerStart? && start(effects[i - 1].attempt).Failure?
              && effects[i + 1] == ProducerStart(effects[i - 1].attempt + 1)
    {
      ScheduleSleepsBetweenStarts(last, i);
    }
  }

  /** The startup loop of the lifespan: `for attempt in range(1, 16)`, which
      breaks on the first `start()` that returns and re-raises on the 15th
      failure, sleeping between failures. */
  method RetryStart(start: nat -> Outcome) returns (s: Startup, effects: seq<Effect>)
    ensures s == Retry(start)
    ensures effects == RetryEffects(start)
  {
    effects := [];
    var attempt := 1;
    while true
      invariant 1 <= attempt <= MaxAttempts
      invariant RetryFrom(start, attempt) == Retry(start)
      invariant effects + [ProducerStart(attempt)] == Schedule(attempt)
      decreases MaxAttempts - attempt
    {
      effects := effects + [ProducerStart(attempt)];
      match start(attempt) {
        case Success =>
          s := Started(attempt);
          return;
        case Failure(e) =>
          if attempt == MaxAttempts {
            s := Aborted(e);
            return;
          }
          effects := effects + [Sleep(RetryDelay)];
          attempt := attempt + 1;
          assert effects + [ProducerStart(attempt)] == Schedule(attempt - 1) + [Sleep(RetryDelay), ProducerStart(attempt)];
      }
    }
  }
}
