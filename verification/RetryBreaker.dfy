/**
 Client retries against a server with a circuit breaker: the two meet in the errors the client is told to
 retry (zel_core/src/protocol/client.rs, zel_core/src/protocol/handlers/rpc.rs,
 zel_core/src/protocol/circuit_breaker.rs).
 */
module RetryBreaker {
  import opened Wrappers
  import opened ErrorClassification
  import opened CircuitBreaker
  import opened BreakerStates
  import opened Sums
  import R = Retry
  import H = RpcHandler

  /**
   One peer that makes calls one after the other.  Its n-th attempt (over all calls) reaches the server at
   time `at(n)`; `handled(n)` is what the handler returns if that attempt gets through to it.
   */
  datatype Setting<!V> = Setting(
    breaker: BreakerStates.Config, retry: R.Config, peer: Peer,
    at: nat -> Time, handled: nat -> Result<V, ResourceError>)

  /** The breaker after n attempts. */
  function StateAfter<V>(x: Setting<V>, n: nat): State {
    if n == 0 then Closed(0)
    else
      H.Execute(Documented(x.breaker), Default, StateAfter(x, n - 1), x.at(n - 1), x.peer, x.handled(n - 1)).breaker
  }

  function Attempt<V>(x: Setting<V>, n: nat): H.Execution<State, V> {
    H.Execute(Documented(x.breaker), Default, StateAfter(x, n), x.at(n), x.peer, x.handled(n))
  }

  function HandlerRuns<V>(x: Setting<V>, n: nat): nat {
    if n == 0 then 0 else HandlerRuns(x, n - 1) + if Attempt(x, n - 1).ran then 1 else 0
  }

  function ToClient<V>(reply: Result<V, ResourceError>): Result<V, R.ClientError> {
    match reply case Ok(v) => Ok(v) case Err(e) => Err(R.Resource(e))
  }

  /** The attempts of a call whose first one is the client's n-th. */
  function AttemptsFrom<V>(x: Setting<V>, n: nat): R.Attempts<V> {
    (i: nat) => ToClient(Attempt(x, n + i).reply)
  }

  /** How many attempts the call makes that starts with the n-th. */
  function MadeBy<V>(x: Setting<V>, n: nat): nat {
    R.MadeFrom(x.retry, AttemptsFrom(x, n), 0)
  }

  /** The number of attempts made by the first `calls` calls. */
  function Start<V>(x: Setting<V>, calls: nat): nat {
    if calls == 0 then 0 else Start(x, calls - 1) + MadeBy(x, Start(x, calls - 1))
  }

  /** Callback errors are retried, a rejection by the breaker is not. */
  ghost predicate RetriesCallbackErrors(c: R.Config) {
    && (forall m, s, t :: c.IsRetryable(R.Resource(CallbackError(m, s, t))))
    && (forall p :: !c.IsRetryable(R.Resource(CircuitBreakerOpen(p))))
  }

  /** The number of consecutive failures that opens the breaker. */
  function Threshold<V>(x: Setting<V>): nat {
    AtLeastOne(x.breaker.consecutiveFailures)
  }

  /** Of the first n attempts, those after the k-th come before the cooldown that starts with it ends. */
  ghost predicate CooldownLasts<V>(x: Setting<V>, n: nat) {
    forall j: nat :: Threshold(x) <= j < n ==> x.at(j) < x.at(Threshold(x) - 1) + x.breaker.timeout
  }

  // ---------------------------------------------------------------------------------------------
  // The attempts as a run of the wrapper
  // ---------------------------------------------------------------------------------------------

  /** A pool in which n calls have been made, all by this peer. */
  ghost predicate After<V>(x: Setting<V>, n: nat, s: Pool<State, V>) {
    && (forall c <- s.calls :: c < n)
    && s.breakers == (if n == 0 then map[] else map[x.peer := StateAfter(x, n)])
    && s.now == if n == 0 then 0 else x.at(n - 1)
  }

  /** In that pool the n-th call has returned what the client got. */
  ghost predicate Replied<V>(x: Setting<V>, n: nat, s: Pool<State, V>) {
    n in s.calls && s.calls[n].Returned? && H.ToReply(x.peer, s.calls[n].result) == Attempt(x, n).reply
  }

  /** The n-th attempt: time passes, and the handler is called through the wrapper. */
  lemma AttemptExtends<V>(x: Setting<V>, n: nat, es: seq<Event<V>>, s: Pool<State, V>)
    returns (fs: seq<Event<V>>, t: Pool<State, V>)
    requires Run(Documented(x.breaker), Default, es) == Some(s) && After(x, n, s) && s.now <= x.at(n)
    ensures Run(Documented(x.breaker), Default, fs) == Some(t) && After(x, n + 1, t) && Replied(x, n, t)
  {
    var b := Documented(x.breaker);
    var e: Event<V> := Tick(x.at(n) - s.now);
    H.RunExtended(b, Default, es, e);
    hide Run, H.Execute, H.ToReply;
    assert (if x.peer in s.breakers then s.breakers[x.peer] else b.init) == StateAfter(x, n);
    fs, t := H.OneCallMore(b, Default, es + [e], s.(now := x.at(n)), n, x.peer, x.handled(n));
    assert t.breakers == map[x.peer := StateAfter(x, n + 1)];
    forall c <- t.calls
      ensures c < n + 1
    {
      assert c in s.calls.Keys + {n};
    }
  }

  /** Made one after the other, the attempts are a run of the wrapper: its breaker for the peer is in the state
      given here, and each of its calls returned what the client got. */
  lemma {:induction false} AttemptsAreARun<V>(x: Setting<V>, n: nat) returns (es: seq<Event<V>>, s: Pool<State, V>)
    requires forall i: nat, j: nat :: i <= j < n ==> x.at(i) <= x.at(j)
    ensures Run(Documented(x.breaker), Default, es) == Some(s) && After(x, n, s)
    ensures n > 0 ==> Replied(x, n - 1, s)
  {
    if n == 0 {
      es, s := [], Init();
    } else {
      es, s := AttemptsAreARun(x, n - 1);
      hide Run;
      es, s := AttemptExtends(x, n - 1, es, s);
    }
  }

  // ---------------------------------------------------------------------------------------------
  // An open breaker, whatever the handler would do
  // ---------------------------------------------------------------------------------------------

  lemma OpenAttempt<V>(x: Setting<V>, n: nat, since: Time)
    requires StateAfter(x, n) == Opened(since) && x.at(n) < since + x.breaker.timeout
    ensures Attempt(x, n).reply == Err(CircuitBreakerOpen(x.peer)) && !Attempt(x, n).ran
    ensures StateAfter(x, n + 1) == Opened(since)
  {
    hide StateAfter;
    assert StateAfter(x, n + 1) == Attempt(x, n).breaker by { NextState(x, n); }
  }

  lemma NextState<V>(x: Setting<V>, n: nat)
    ensures StateAfter(x, n + 1) == Attempt(x, n).breaker
  {
    hide H.Execute;
  }

  lemma {:induction false} StaysOpen<V>(x: Setting<V>, n: nat, m: nat, since: Time)
    requires n <= m && StateAfter(x, n) == Opened(since)
    requires forall j: nat :: n <= j < m ==> x.at(j) < since + x.breaker.timeout
    ensures StateAfter(x, m) == Opened(since) && HandlerRuns(x, m) == HandlerRuns(x, n)
  {
    hide Attempt, StateAfter;
    if n < m {
      StaysOpen(x, n, m - 1, since);
      OpenAttempt(x, m - 1, since);
    }
  }

  /** Until the cooldown ends, every call to an open breaker makes one attempt, gets CircuitBreakerOpen and
      leaves the handler alone. */
  lemma OpenCallsFailFast<V>(x: Setting<V>, n: nat, m: nat, since: Time)
    requires RetriesCallbackErrors(x.retry) && n <= m && StateAfter(x, n) == Opened(since)
    requires forall j: nat :: n <= j <= m ==> x.at(j) < since + x.breaker.timeout
    ensures MadeBy(x, m) == 1
    ensures AttemptsFrom(x, m)(0) == Err(R.Resource(CircuitBreakerOpen(x.peer)))
    ensures HandlerRuns(x, m + 1) == HandlerRuns(x, n)
  {
    hide Attempt, StateAfter, HandlerRuns;
    StaysOpen(x, n, m, since);
    StaysOpen(x, n, m + 1, since);
    OpenAttempt(x, m, since);
    assert m + 0 == m && AttemptsFrom(x, m)(0) == ToClient(Attempt(x, m + 0).reply);
  }

  // ---------------------------------------------------------------------------------------------
  // A handler that always fails severely
  // ---------------------------------------------------------------------------------------------

  /** Of the first n attempts, those that can reach the handler fail severely. */
  ghost predicate FailsSeverely<V>(x: Setting<V>, n: nat) {
    forall i: nat :: i < n && i < Threshold(x) ==>
      x.handled(i).Err? && x.handled(i).error.Severity() != Application
  }

  lemma FirstState<V>(x: Setting<V>)
    ensures StateAfter(x, 0) == Closed(0)
  {
  }

  lemma {:induction false} StateUnderSevereErrors<V>(x: Setting<V>, n: nat)
    requires FailsSeverely(x, n) && CooldownLasts(x, n)
    ensures var k := Threshold(x);
            && StateAfter(x, n) == (if n < k then Closed(n) else Opened(x.at(k - 1)))
            && HandlerRuns(x, n) == (if n < k then n else k)
  {
    hide Attempt, StateAfter;
    assert StateAfter(x, 0) == Closed(0) by { FirstState(x); }
    if n > 0 {
      StateUnderSevereErrors(x, n - 1);
      if n - 1 < Threshold(x) {
        SevereAttempt(x, n - 1);
      } else {
        StaysOpen(x, n - 1, n, x.at(Threshold(x) - 1));
      }
    }
  }

  lemma SevereAttempt<V>(x: Setting<V>, n: nat)
    requires x.handled(n).Err? && x.handled(n).error.Severity() != Application && StateAfter(x, n).Closed?
    ensures Attempt(x, n).ran && Attempt(x, n).reply.Err? && Attempt(x, n).reply.error.CallbackError?
    ensures StateAfter(x, n + 1) == Record(x.breaker, StateAfter(x, n), x.at(n), false)
  {
    var e := x.handled(n).error;
    H.MarkedWithSeverity(e);
    H.ReplyFollowsClassifier(Documented(x.breaker), Default, StateAfter(x, n), x.at(n), x.peer, x.handled(n));
  }

  lemma FewerAttempts<V>(x: Setting<V>, m: nat, n: nat)
    requires m <= n && FailsSeverely(x, n) && CooldownLasts(x, n)
    ensures FailsSeverely(x, m) && CooldownLasts(x, m)
  {
  }

  /** How the n-th attempt looks to the client: retryable while the breaker is closed, final after. */
  lemma SevereReply<V>(x: Setting<V>, n: nat)
    requires RetriesCallbackErrors(x.retry) && FailsSeverely(x, n + 1) && CooldownLasts(x, n + 1)
    ensures R.Retried(x.retry, ToClient(Attempt(x, n).reply)) <==> n < Threshold(x)
    ensures Threshold(x) <= n ==> Attempt(x, n).reply == Err(CircuitBreakerOpen(x.peer))
  {
    StateUnderSevereErrors(x, n);
    if n < Threshold(x) {
      SevereAttempt(x, n);
    } else {
      OpenAttempt(x, n, x.at(Threshold(x) - 1));
    }
  }

  /** The call that starts with the n-th attempt uses up its retries, or stops at the attempt after the
      k-th, whichever comes first - if its attempts come before the cooldown ends. */
  lemma MadeUnderSevereErrors<V>(x: Setting<V>, n: nat)
    requires RetriesCallbackErrors(x.retry)
    requires FailsSeverely(x, n + MadeBy(x, n)) && CooldownLasts(x, n + MadeBy(x, n))
    ensures var k, most := Threshold(x), x.retry.maxAttempts + 1;
            MadeBy(x, n) == if k <= n then 1 else if k - n + 1 <= most then k - n + 1 else most
  {
    hide Attempt, R.MadeFrom, R.Retried, FailsSeverely, CooldownLasts, RetriesCallbackErrors;
    var made := MadeBy(x, n);
    R.MadeFromMeaning(x.retry, AttemptsFrom(x, n), 0);
    FewerAttempts(x, n + made - 1, n + made);
    SevereReply(x, n + made - 1);
    assert AttemptsFrom(x, n)(made - 1) == ToClient(Attempt(x, n + made - 1).reply);
    if made > 1 {
      SevereReply(x, n + made - 2);
      assert R.Retried(x.retry, AttemptsFrom(x, n)(made - 2));
    }
  }

  /**
   Any number of calls whose attempts after the k-th come before the cooldown ends: the handler runs
   min(k, attempts) times in all; and a further call, if it too starts before the cooldown ends, makes one
   attempt and returns CircuitBreakerOpen once the breaker has opened.
   */
  lemma RetriesAgainstBreaker<V>(x: Setting<V>, calls: nat)
    requires RetriesCallbackErrors(x.retry)
    requires FailsSeverely(x, Start(x, calls)) && CooldownLasts(x, Start(x, calls))
    ensures var k, n := Threshold(x), Start(x, calls);
            && calls <= n <= calls * (x.retry.maxAttempts + 1)
            && HandlerRuns(x, n) == (if k <= n then k else n)
            && (k <= n && x.at(n) < x.at(k - 1) + x.breaker.timeout ==>
                  && MadeBy(x, n) == 1
                  && AttemptsFrom(x, n)(0) == Err(R.Resource(CircuitBreakerOpen(x.peer)))
                  && HandlerRuns(x, n + 1) == k)
  {
    hide Attempt, H.Execute, R.MadeFrom, HandlerRuns, StateAfter;
    var k, n := Threshold(x), Start(x, calls);
    StartBounds(x, calls);
    StateUnderSevereErrors(x, n);
    if k <= n && x.at(n) < x.at(k - 1) + x.breaker.timeout {
      OpenCallsFailFast(x, n, n, x.at(k - 1));
    }
  }

  lemma {:induction false} StartBounds<V>(x: Setting<V>, calls: nat)
    ensures calls <= Start(x, calls) <= calls * (x.retry.maxAttempts + 1)
  {
    hide Attempt, R.MadeFrom;
    if calls > 0 {
      var before, most := Start(x, calls - 1), x.retry.maxAttempts + 1;
      StartBounds(x, calls - 1);
      R.MadeFromMeaning(x.retry, AttemptsFrom(x, before), 0);
      assert 1 <= MadeBy(x, before) <= most;
      hide MadeBy;
      OneMore(most, calls - 1);
      assert calls * most == most * (calls - 1 + 1);
    }
  }
}
