/**
 Client-side retries and their metrics (zel_core/src/protocol/client.rs, zel_core/src/protocol/retry.rs,
 zel_core/src/protocol/retry_metrics.rs).

 The library that drives the retries is modelled by its contract: after the first attempt, up to
 `maxAttempts` more, each after the next delay of the policy, as long as the predicate holds of the
 last error.
 */
module Retry {
  import opened Wrappers
  import opened ErrorClassification
  import Backoff

  datatype ClientError =
    | Io(message: string)
    | Serialization(message: string)
    | Resource(error: ResourceError)
    | Connection(message: string)
    | Protocol(message: string)

  datatype ErrorPredicate = NetworkOnly | NetworkAndTimeout | Custom(f: ClientError -> bool)

  datatype Config = Config(maxAttempts: nat, policy: Backoff.Policy, retryable: ErrorPredicate)
  {
    predicate IsRetryable(e: ClientError) {
      match retryable
      case NetworkOnly => e.Connection? || e.Io?
      case NetworkAndTimeout => e.Connection? || e.Io? || e.Protocol?
      case Custom(f) => f(e)
    }

    predicate Valid() {
      0 < maxAttempts && Backoff.Valid(policy)
    }
  }

  datatype ConfigError = InvalidMaxAttempts | InvalidBackoffRange | InvalidMultiplier

  /** `RetryConfigBuilder::build`: nothing but a valid configuration gets out. */
  function Build(c: Config): (r: Result<Config, ConfigError>)
    ensures r.Ok? <==> c.Valid()
    ensures r.Ok? ==> r.value == c
    ensures r.Err? ==>
              match r.error
              case InvalidMaxAttempts => c.maxAttempts == 0
              case InvalidBackoffRange => c.maxAttempts > 0 && c.policy.initial >= c.policy.max
              case InvalidMultiplier =>
                c.maxAttempts > 0 && c.policy.initial < c.policy.max && c.policy.multiplier <= 1.0
  {
    if c.maxAttempts == 0 then Err(InvalidMaxAttempts)
    else if c.policy.initial >= c.policy.max then Err(InvalidBackoffRange)
    else if c.policy.multiplier <= 1.0 then Err(InvalidMultiplier)
    else Ok(c)
  }

  /** Network errors are retried by both built-in predicates, protocol errors by the second only, and neither
      ever retries what the server or the serialization said. */
  lemma RetriesExactly(c: Config, e: ClientError)
    ensures c.retryable.Custom? ==> (c.IsRetryable(e) <==> c.retryable.f(e))
    ensures !c.retryable.Custom? && (e.Connection? || e.Io?) ==> c.IsRetryable(e)
    ensures !c.retryable.Custom? && e.Protocol? ==> (c.IsRetryable(e) <==> c.retryable.NetworkAndTimeout?)
    ensures !c.retryable.Custom? && (e.Resource? || e.Serialization?) ==> !c.IsRetryable(e)
  {
  }

  // ---------------------------------------------------------------------------------------------
  // One call
  // ---------------------------------------------------------------------------------------------

  /** What the i-th attempt of a call gives, whether or not it is made. */
  type Attempts<!R> = nat -> Result<R, ClientError>

  predicate Retried<R>(c: Config, r: Result<R, ClientError>) {
    r.Err? && c.IsRetryable(r.error)
  }

  /** n attempts is what the retry contract allows for these outcomes. */
  ghost predicate Made<R>(c: Config, attempts: Attempts<R>, n: nat) {
    && 1 <= n <= c.maxAttempts + 1
    && (forall i: nat :: i < n - 1 ==> Retried(c, attempts(i)))
    && (n == c.maxAttempts + 1 || !Retried(c, attempts(n - 1)))
  }

  /** How many attempts are made from the i-th on. */
  function MadeFrom<R>(c: Config, attempts: Attempts<R>, i: nat): (n: nat)
    requires i <= c.maxAttempts
    decreases c.maxAttempts - i
  {
    if i < c.maxAttempts && Retried(c, attempts(i)) then 1 + MadeFrom(c, attempts, i + 1) else 1
  }

  lemma {:induction false} MadeFromMeaning<R>(c: Config, attempts: Attempts<R>, i: nat)
    requires i <= c.maxAttempts
    ensures var n := MadeFrom(c, attempts, i);
            && 1 <= n && i + n <= c.maxAttempts + 1
            && (forall j: nat :: i <= j < i + n - 1 ==> Retried(c, attempts(j)))
            && (i + n == c.maxAttempts + 1 || !Retried(c, attempts(i + n - 1)))
    decreases c.maxAttempts - i
  {
    if i < c.maxAttempts && Retried(c, attempts(i)) {
      MadeFromMeaning(c, attempts, i + 1);
    }
  }

  /** The contract leaves no choice: the number of attempts is determined by their outcomes. */
  lemma MadeIsUnique<R>(c: Config, attempts: Attempts<R>, n: nat)
    requires Made(c, attempts, n)
    ensures n == MadeFrom(c, attempts, 0)
  {
    MadeFromMeaning(c, attempts, 0);
  }

  // ---------------------------------------------------------------------------------------------
  // Metrics
  // ---------------------------------------------------------------------------------------------

  const U64: nat := 0x1_0000_0000_0000_0000

  datatype Counters = Counters(totalRetries: nat, successfulAfterRetry: nat, failedAfterMaxRetries: nat)

  /** Counters of 64 bits wrap around. */
  function Plus(a: Counters, b: Counters): Counters {
    Counters((a.totalRetries + b.totalRetries) % U64,
             (a.successfulAfterRetry + b.successfulAfterRetry) % U64,
             (a.failedAfterMaxRetries + b.failedAfterMaxRetries) % U64)
  }

  /** What one attempt adds. */
  function AttemptTally<R>(c: Config, r: Result<R, ClientError>, index: nat): Counters {
    match r
    case Ok(_) => Counters(0, if index > 0 then 1 else 0, 0)
    case Err(e) =>
      if c.IsRetryable(e) then Counters(1, 0, 0)
      else Counters(0, 0, if c.maxAttempts <= index + 1 then 1 else 0)
  }

  /** What a call of n attempts adds, in terms of how it went. */
  function CallTally<R>(c: Config, attempts: Attempts<R>, n: nat): Counters
    requires 1 <= n
  {
    var last := attempts(n - 1);
    Counters(
      if Retried(c, last) then n else n - 1,
      if last.Ok? && n > 1 then 1 else 0,
      if last.Err? && !c.IsRetryable(last.error) && c.maxAttempts <= n then 1 else 0)
  }

  class RetryMetrics {
    var totalRetries: nat
    var successfulAfterRetry: nat
    var failedAfterMaxRetries: nat

    function View(): Counters
      reads this
    {
      Counters(totalRetries, successfulAfterRetry, failedAfterMaxRetries)
    }

    predicate Valid()
      reads this
    {
      totalRetries < U64 && successfulAfterRetry < U64 && failedAfterMaxRetries < U64
    }

    constructor ()
      ensures Valid() && View() == Counters(0, 0, 0)
    {
      totalRetries, successfulAfterRetry, failedAfterMaxRetries := 0, 0, 0;
    }

    method IncrementTotalRetries()
      requires Valid()
      modifies this
      ensures Valid() && View() == Plus(old(View()), Counters(1, 0, 0))
    {
      totalRetries := (totalRetries + 1) % U64;
    }

    method RecordSuccessAfterRetry()
      requires Valid()
      modifies this
      ensures Valid() && View() == Plus(old(View()), Counters(0, 1, 0))
    {
      successfulAfterRetry := (successfulAfterRetry + 1) % U64;
    }

    method RecordMaxRetriesExceeded()
      requires Valid()
      modifies this
      ensures Valid() && View() == Plus(old(View()), Counters(0, 0, 1))
    {
      failedAfterMaxRetries := (failedAfterMaxRetries + 1) % U64;
    }

    method Reset()
      modifies this
      ensures Valid() && View() == Counters(0, 0, 0)
    {
      totalRetries, successfulAfterRetry, failedAfterMaxRetries := 0, 0, 0;
    }
  }

  /** What the metrics are told about one attempt. */
  method RecordAttempt<R>(c: Config, result: Result<R, ClientError>, currentAttempt: nat, metrics: RetryMetrics)
    requires c.Valid() && metrics.Valid()
    modifies metrics
    ensures metrics.Valid() && metrics.View() == Plus(old(metrics.View()), AttemptTally(c, result, currentAttempt))
  {
    match result {
      case Ok(_) =>
        if currentAttempt > 0 {
          metrics.RecordSuccessAfterRetry();
        }
      case Err(e) =>
        if c.IsRetryable(e) {
          metrics.IncrementTotalRetries();
        } else if currentAttempt >= c.maxAttempts - 1 {
          metrics.RecordMaxRetriesExceeded();
        }
    }
  }

  lemma PlusTwice(a: Counters, b: Counters, d: Counters)
    ensures Plus(Plus(a, b), d) ==
            Plus(a, Counters(b.totalRetries + d.totalRetries, b.successfulAfterRetry + d.successfulAfterRetry,
                             b.failedAfterMaxRetries + d.failedAfterMaxRetries))
  {
    ModTwice(a.totalRetries, b.totalRetries, d.totalRetries);
    ModTwice(a.successfulAfterRetry, b.successfulAfterRetry, d.successfulAfterRetry);
    ModTwice(a.failedAfterMaxRetries, b.failedAfterMaxRetries, d.failedAfterMaxRetries);
  }

  lemma PlusNothing(a: Counters)
    requires a.totalRetries < U64 && a.successfulAfterRetry < U64 && a.failedAfterMaxRetries < U64
    ensures Plus(a, Counters(0, 0, 0)) == a
  {
  }

  lemma ModTwice(a: nat, b: nat, d: nat)
    ensures ((a + b) % U64 + d) % U64 == (a + (b + d)) % U64
  {
  }

  /**
   `call_with_retry`.  At least one attempt and at most maxAttempts + 1 are made, each but the last ended
   in a retryable error, the result is the last attempt's, the delays slept are those of the policy,
   and the metrics grow by what the attempts amount to.
   */
  method CallWithRetry<R>(c: Config, attempts: Attempts<R>, metrics: RetryMetrics?)
    returns (result: Result<R, ClientError>, made: nat, slept: seq<Backoff.Duration>)
    requires c.Valid()
    requires metrics != null ==> metrics.Valid()
    modifies if metrics == null then {} else {metrics}
    ensures Made(c, attempts, made)
    ensures result == attempts(made - 1)
    ensures |slept| == made - 1
    ensures forall i: nat :: i < |slept| ==> slept[i] == Backoff.Delay(c.policy, i)
    ensures metrics != null ==>
              metrics.Valid() && metrics.View() == Plus(old(metrics.View()), CallTally(c, attempts, made))
  {
    hide Plus, Backoff.Next;
    var attempt := 0;
    var delay := c.policy.initial;
    slept := [];
    ghost var start := if metrics == null then Counters(0, 0, 0) else metrics.View();
    if metrics != null {
      PlusNothing(start);
    }
    while true
      invariant attempt <= c.maxAttempts && |slept| == attempt
      invariant delay == Backoff.Delay(c.policy, attempt)
      invariant forall i: nat :: i < attempt ==> slept[i] == Backoff.Delay(c.policy, i)
      invariant forall i: nat :: i < attempt ==> Retried(c, attempts(i))
      invariant metrics != null ==> metrics.Valid() && metrics.View() == Plus(start, Counters(attempt, 0, 0))
      decreases c.maxAttempts - attempt
    {
      var currentAttempt := attempt;
      attempt := attempt + 1;
      result := attempts(currentAttempt);
      if metrics != null {
        RecordAttempt(c, result, currentAttempt, metrics);
        PlusTwice(start, Counters(currentAttempt, 0, 0), AttemptTally(c, result, currentAttempt));
      }
      if result.Ok? || !c.IsRetryable(result.error) || currentAttempt == c.maxAttempts {
        return result, attempt, slept;
      }
      slept := slept + [delay];
      delay := Backoff.Next(c.policy, delay);
    }
  }

  // ---------------------------------------------------------------------------------------------
  // Any number of calls
  // ---------------------------------------------------------------------------------------------

  datatype CallRecord<!R> = CallRecord(attempts: Attempts<R>, made: nat)

  ghost predicate AllMade<R(!new)>(c: Config, calls: seq<CallRecord<R>>) {
    forall x <- calls :: Made(c, x.attempts, x.made)
  }

  predicate Exhausted<R>(c: Config, x: CallRecord<R>)
    requires 1 <= x.made
  {
    Retried(c, x.attempts(x.made - 1))
  }

  /** The counters after these calls on fresh metrics. */
  ghost function After<R(!new)>(c: Config, calls: seq<CallRecord<R>>): Counters
    requires AllMade(c, calls)
  {
    if calls == [] then Counters(0, 0, 0)
    else
      var x := calls[|calls| - 1];
      Plus(After(c, calls[..|calls| - 1]), CallTally(c, x.attempts, x.made))
  }

  function AttemptCount<R>(calls: seq<CallRecord<R>>): nat {
    if calls == [] then 0 else AttemptCount(calls[..|calls| - 1]) + calls[|calls| - 1].made
  }

  /** Calls whose last attempt ended in a retryable error: every retry was used up. */
  ghost function ExhaustedCount<R(!new)>(c: Config, calls: seq<CallRecord<R>>): nat
    requires AllMade(c, calls)
  {
    if calls == [] then 0
    else ExhaustedCount(c, calls[..|calls| - 1]) + if Exhausted(c, calls[|calls| - 1]) then 1 else 0
  }

  ghost function LateSuccesses<R(!new)>(c: Config, calls: seq<CallRecord<R>>): nat
    requires AllMade(c, calls)
  {
    if calls == [] then 0
    else
      var x := calls[|calls| - 1];
      LateSuccesses(c, calls[..|calls| - 1]) + if x.made > 1 && x.attempts(x.made - 1).Ok? then 1 else 0
  }

  /** Calls ended by an error that is not retryable, at index maxAttempts - 1 or later. */
  ghost function LateRefusals<R(!new)>(c: Config, calls: seq<CallRecord<R>>): nat
    requires AllMade(c, calls)
  {
    if calls == [] then 0
    else
      var x := calls[|calls| - 1];
      var last := x.attempts(x.made - 1);
      LateRefusals(c, calls[..|calls| - 1]) +
      if last.Err? && !c.IsRetryable(last.error) && c.maxAttempts - 1 <= x.made - 1 then 1 else 0
  }

  /**
   Conservation, over any sequence of calls and up to the width of the counters: the retries counted are
   the attempts beyond the first of each call plus one for every exhausted call; the successes counted
   are those after a retry; the failures counted are the late refusals.
   */
  lemma {:induction false} MetricsAddUp<R(!new)>(c: Config, calls: seq<CallRecord<R>>)
    requires AllMade(c, calls)
    ensures |calls| <= AttemptCount(calls)
    ensures After(c, calls) ==
            Counters((AttemptCount(calls) - |calls| + ExhaustedCount(c, calls)) % U64,
                     LateSuccesses(c, calls) % U64,
                     LateRefusals(c, calls) % U64)
  {
    hide Made, Plus;
    if calls != [] {
      var before, x := calls[..|calls| - 1], calls[|calls| - 1];
      MetricsAddUp(c, before);
      TallyOfCall(c, x.attempts, x.made);
      PlusReduced(AttemptCount(before) - |before| + ExhaustedCount(c, before), LateSuccesses(c, before),
                  LateRefusals(c, before), CallTally(c, x.attempts, x.made));
    }
  }

  lemma TallyOfCall<R>(c: Config, attempts: Attempts<R>, n: nat)
    requires Made(c, attempts, n)
    ensures 1 <= n
    ensures CallTally(c, attempts, n).totalRetries == n - 1 + if Retried(c, attempts(n - 1)) then 1 else 0
  {
  }

  lemma PlusReduced(a: nat, b: nat, d: nat, t: Counters)
    ensures Plus(Counters(a % U64, b % U64, d % U64), t) ==
            Counters((a + t.totalRetries) % U64, (b + t.successfulAfterRetry) % U64,
                     (d + t.failedAfterMaxRetries) % U64)
  {
    ModTwice(0, a, t.totalRetries);
    ModTwice(0, b, t.successfulAfterRetry);
    ModTwice(0, d, t.failedAfterMaxRetries);
  }

  /**
   The counter documented as "failed after exhausting max retries" never counts an exhausted call: it
   counts a call exactly when a non-retryable error ended it at a late attempt.
   */
  lemma FailureCounterMissesExhaustion<R>(c: Config, attempts: Attempts<R>, n: nat)
    requires Made(c, attempts, n)
    ensures var last := attempts(n - 1);
            && (CallTally(c, attempts, n).failedAfterMaxRetries == 1 <==>
                  !Retried(c, last) && last.Err? && c.maxAttempts <= n)
            && (Retried(c, last) ==> n == c.maxAttempts + 1 && CallTally(c, attempts, n) == Counters(n, 0, 0))
  {
  }

  /** A call of this kind: every attempt fails with a connection error, and all retries are used. */
  lemma ExhaustedCallUncounted(p: Backoff.Policy)
    ensures var c := Config(3, p, NetworkOnly);
            var attempts: Attempts<()> := _ => Err(Connection("reset"));
            Made(c, attempts, 4) && CallTally(c, attempts, 4) == Counters(4, 0, 0)
  {
  }

  /** A call sleeps no longer than the policy allows for its retries. */
  lemma SleepBounded(c: Config, slept: seq<Backoff.Duration>)
    requires c.Valid() && |slept| <= c.maxAttempts
    requires forall i: nat :: i < |slept| ==> slept[i] == Backoff.Delay(c.policy, i)
    ensures Sum(slept) <= |slept| as real * c.policy.max
    ensures Sum(slept) <= Backoff.Series(c.policy, |slept|)
  {
    hide Backoff.Series, Backoff.Total, Sum;
    SumIsTotal(c, slept);
    Backoff.TotalBounded(c.policy, |slept|);
  }

  function Sum(xs: seq<Backoff.Duration>): real {
    if xs == [] then 0.0 else Sum(xs[..|xs| - 1]) + xs[|xs| - 1]
  }

  lemma {:induction false} SumIsTotal(c: Config, slept: seq<Backoff.Duration>)
    requires c.Valid()
    requires forall i: nat :: i < |slept| ==> slept[i] == Backoff.Delay(c.policy, i)
    ensures Sum(slept) == Backoff.Total(c.policy, |slept|)
  {
    if slept != [] {
      SumIsTotal(c, slept[..|slept| - 1]);
    }
  }
}
