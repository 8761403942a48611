/**
 The circuit breaker as the documentation of zel_core/src/protocol/circuit_breaker.rs describes it: Closed,
 Open and Half-Open.  What opens it is a number of consecutive failures; the failure rate is not modelled.

 Assumed beyond that text: an outcome that arrives while the breaker is open (from a call admitted
 earlier) changes nothing, Half-Open admits every call, and a threshold of 0 acts like 1.
 */
module BreakerStates {
  import opened Wrappers
  import opened ErrorClassification
  import opened CircuitBreaker

  datatype Config = Config(consecutiveFailures: nat, consecutiveSuccesses: nat, timeout: Time)

  /** With the run of failures, the moment of opening, the run of successes so far. */
  datatype State = Closed(failures: nat) | Opened(since: Time) | HalfOpen(successes: nat)

  function Admit(cfg: Config, s: State, now: Time): (bool, State) {
    match s
    case Opened(since) => if since + cfg.timeout <= now then (true, HalfOpen(0)) else (false, s)
    case _ => (true, s)
  }

  function Record(cfg: Config, s: State, now: Time, ok: bool): State {
    match s
    case Closed(f) => if ok then Closed(0) else if cfg.consecutiveFailures <= f + 1 then Opened(now) else Closed(f + 1)
    case Opened(_) => s
    case HalfOpen(n) =>
      if !ok then Opened(now) else if cfg.consecutiveSuccesses <= n + 1 then Closed(0) else HalfOpen(n + 1)
  }

  function Documented(cfg: Config): Breaker<State> {
    Breaker(Closed(0), (s, now) => Admit(cfg, s, now), (s, now, ok) => Record(cfg, s, now, ok))
  }

  // ---------------------------------------------------------------------------------------------
  // Histories of outcomes
  // ---------------------------------------------------------------------------------------------

  datatype Outcome = Outcome(at: Time, ok: bool)

  function RecordAll(cfg: Config, s: State, h: seq<Outcome>): State {
    if h == [] then s
    else
      var o := h[|h| - 1];
      Record(cfg, RecordAll(cfg, s, h[..|h| - 1]), o.at, o.ok)
  }

  function AtLeastOne(n: nat): nat {
    if n == 0 then 1 else n
  }

  /** The last n outcomes are all failures. */
  predicate EndsInFailures(h: seq<Outcome>, n: nat) {
    n <= |h| && forall i :: |h| - n <= i < |h| ==> !h[i].ok
  }

  /** Some prefix ends in n failures in a row. */
  ghost predicate EverFailsInARow(h: seq<Outcome>, n: nat) {
    exists j {:trigger h[..j]} :: 0 <= j <= |h| && EndsInFailures(h[..j], n)
  }

  function TrailingFailures(h: seq<Outcome>): (n: nat)
    ensures EndsInFailures(h, n)
    ensures forall m: nat :: EndsInFailures(h, m) ==> m <= n
  {
    if h == [] || h[|h| - 1].ok then 0
    else
      var n := TrailingFailures(h[..|h| - 1]);
      assert forall m: nat :: 0 < m && EndsInFailures(h, m) ==> EndsInFailures(h[..|h| - 1], m - 1);
      n + 1
  }

  lemma EverFailsInARowExtended(h: seq<Outcome>, n: nat)
    requires h != []
    ensures EverFailsInARow(h, n) <==> EverFailsInARow(h[..|h| - 1], n) || EndsInFailures(h, n)
  {
    var g := h[..|h| - 1];
    if EverFailsInARow(h, n) {
      var j :| 0 <= j <= |h| && EndsInFailures(h[..j], n);
      if j < |h| {
        assert g[..j] == h[..j];
      } else {
        assert h[..j] == h;
      }
    }
    if EverFailsInARow(g, n) {
      var j :| 0 <= j <= |g| && EndsInFailures(g[..j], n);
      assert h[..j] == g[..j];
    }
    if EndsInFailures(h, n) {
      assert h[..|h|] == h;
    }
  }

  /**
   A closed breaker opens exactly when the last k outcomes are failures with none else between them: at
   the first such moment, and never as long as there is none.
   */
  lemma {:induction false} OpensExactlyOnConsecutiveFailures(cfg: Config, h: seq<Outcome>)
    ensures var k := AtLeastOne(cfg.consecutiveFailures);
            && (!EverFailsInARow(h, k) ==> RecordAll(cfg, Closed(0), h) == Closed(TrailingFailures(h)))
            && (EverFailsInARow(h, k) ==> RecordAll(cfg, Closed(0), h).Opened?)
            && (h != [] && EndsInFailures(h, k) && !EverFailsInARow(h[..|h| - 1], k) ==>
                  RecordAll(cfg, Closed(0), h) == Opened(h[|h| - 1].at))
  {
    var k := AtLeastOne(cfg.consecutiveFailures);
    if h != [] {
      var g := h[..|h| - 1];
      OpensExactlyOnConsecutiveFailures(cfg, g);
      EverFailsInARowExtended(h, k);
      assert h[..|h|] == h && g[..|g|] == g;
      var n := TrailingFailures(h);
      assert k <= n ==> EndsInFailures(h, k);
    } else {
      assert forall j :: 0 <= j <= |h| ==> h[..j] == [];
    }
  }

  /**
   A half-open breaker closes after s successes and nothing else, and any failure before that reopens
   it at once.
   */
  lemma {:induction false} HalfOpenClosesExactlyOnSuccesses(cfg: Config, h: seq<Outcome>)
    requires |h| <= AtLeastOne(cfg.consecutiveSuccesses)
    ensures var s := AtLeastOne(cfg.consecutiveSuccesses);
            var end := RecordAll(cfg, HalfOpen(0), h);
            && (end.HalfOpen? <==> |h| < s && forall o <- h :: o.ok)
            && (end.Closed? <==> |h| == s && forall o <- h :: o.ok)
            && (end.HalfOpen? ==> end.successes == |h|)
            && (end.Closed? ==> end == Closed(0))
            && (h != [] && !h[|h| - 1].ok && (forall o <- h[..|h| - 1] :: o.ok) ==> end == Opened(h[|h| - 1].at))
  {
    if h != [] {
      HalfOpenClosesExactlyOnSuccesses(cfg, h[..|h| - 1]);
      assert forall o <- h :: o in h[..|h| - 1] || o == h[|h| - 1];
    }
  }

  // ---------------------------------------------------------------------------------------------
  // The same, through the wrapper, for calls of all peers in any interleaving
  // ---------------------------------------------------------------------------------------------

  /** What a run has recorded for p, in order. */
  function RecordedFor<R>(cfg: Config, cl: Classifier, es: seq<Event<R>>, p: Peer): seq<Outcome>
    requires Run(Documented(cfg), cl, es).Some?
  {
    if es == [] then []
    else
      var e := es[|es| - 1];
      var es0 := es[..|es| - 1];
      RecordedFor(cfg, cl, es0, p) +
      if e.Finish? && e.peer == p
      then [Outcome(Run(Documented(cfg), cl, es0).value.now, !Severe(cl, e.outcome))]
      else []
  }

  /** No call of p has been rejected. */
  ghost predicate NoneRejected<R>(s: Pool<State, R>, p: Peer) {
    forall c <- s.calls :: s.calls[c] != Returned(p, Err(Open))
  }

  lemma RecordedForStep<R>(cfg: Config, cl: Classifier, es: seq<Event<R>>, p: Peer)
    requires es != [] && Run(Documented(cfg), cl, es).Some?
    ensures var es0, e := es[..|es| - 1], es[|es| - 1];
            var s0, s := Run(Documented(cfg), cl, es0).value, Run(Documented(cfg), cl, es).value;
            if e.Finish? && e.peer == p then
              && p in s0.breakers && p in s.breakers
              && s.breakers[p] == Record(cfg, s0.breakers[p], s0.now, !Severe(cl, e.outcome))
            else if e.Admit? && e.peer == p then
              p in s0.breakers && p in s.breakers && s.breakers[p] == Admit(cfg, s0.breakers[p], s0.now).1
            else if p in s0.breakers then p in s.breakers && s.breakers[p] == s0.breakers[p]
            else p in s.breakers ==> s.breakers[p] == Closed(0)
  {
    if es[|es| - 1].Finish? {
      ShownAsClassified(cl, es[|es| - 1].outcome);
    }
  }

  /**
   In any interleaving, as long as the outcomes recorded for a peer never contain k failures in a row, its
   breaker is closed, counts the failures at the end of the record, and has rejected nothing.
   */
  lemma {:induction false} ClosedWithoutConsecutiveFailures<R>(cfg: Config, cl: Classifier, es: seq<Event<R>>, p: Peer)
    requires Run(Documented(cfg), cl, es).Some?
    requires !EverFailsInARow(RecordedFor(cfg, cl, es, p), AtLeastOne(cfg.consecutiveFailures))
    ensures var s := Run(Documented(cfg), cl, es).value;
            var h := RecordedFor(cfg, cl, es, p);
            && (p in s.breakers ==> s.breakers[p] == RecordAll(cfg, Closed(0), h) == Closed(TrailingFailures(h)))
            && (p !in s.breakers ==> h == [])
            && NoneRejected(s, p)
  {
    var h := RecordedFor(cfg, cl, es, p);
    OpensExactlyOnConsecutiveFailures(cfg, h);
    if es != [] {
      var es0, e := es[..|es| - 1], es[|es| - 1];
      var h0 := RecordedFor(cfg, cl, es0, p);
      if h != h0 {
        assert h[..|h| - 1] == h0;
        EverFailsInARowExtended(h, AtLeastOne(cfg.consecutiveFailures));
      }
      ClosedWithoutConsecutiveFailures(cfg, cl, es0, p);
      OpensExactlyOnConsecutiveFailures(cfg, h0);
      RecordedForStep(cfg, cl, es, p);
      NoneRejectedStep(cfg, cl, Run(Documented(cfg), cl, es0).value, e, p);
    }
  }

  lemma NoneRejectedStep<R>(cfg: Config, cl: Classifier, s: Pool<State, R>, e: Event<R>, p: Peer)
    requires Step(Documented(cfg), cl, s, e).Some? && NoneRejected(s, p)
    requires p in s.breakers ==> s.breakers[p].Closed?
    ensures NoneRejected(Step(Documented(cfg), cl, s, e).value, p)
  {
    if e.Finish? {
      ShownAsClassified(cl, e.outcome);
    }
  }

  /** The outcome that completes the first k failures in a row opens the breaker, then and there. */
  lemma OpensOnKthFailure<R>(cfg: Config, cl: Classifier, es: seq<Event<R>>, p: Peer)
    requires es != [] && Run(Documented(cfg), cl, es).Some?
    requires var k := AtLeastOne(cfg.consecutiveFailures);
             && !EverFailsInARow(RecordedFor(cfg, cl, es[..|es| - 1], p), k)
             && EndsInFailures(RecordedFor(cfg, cl, es, p), k)
    ensures var s := Run(Documented(cfg), cl, es).value; p in s.breakers && s.breakers[p] == Opened(s.now)
  {
    hide EverFailsInARow, EndsInFailures, TrailingFailures, Record, RecordAll, NoneRejected, Severe;
    var es0 := es[..|es| - 1];
    var h0, h := RecordedFor(cfg, cl, es0, p), RecordedFor(cfg, cl, es, p);
    ClosedWithoutConsecutiveFailures(cfg, cl, es0, p);
    RecordedForStep(cfg, cl, es, p);
    RecordGrew(cfg, h0, h);
    OpensExactlyOnConsecutiveFailures(cfg, h);
  }

  lemma RecordGrew(cfg: Config, h0: seq<Outcome>, h: seq<Outcome>)
    requires var k := AtLeastOne(cfg.consecutiveFailures); !EverFailsInARow(h0, k) && EndsInFailures(h, k)
    ensures h != h0
    ensures h != [] && h[..|h| - 1] == h0 ==>
              RecordAll(cfg, Closed(0), h) == Record(cfg, RecordAll(cfg, Closed(0), h0), h[|h| - 1].at, h[|h| - 1].ok)
  {
    assert h0[..|h0|] == h0;
  }

  /** The breaker is open, its timeout has passed, and this call is the first to be let through again. */
  predicate BeginsProbing<R>(cfg: Config, s: Pool<State, R>, e: Event<R>, p: Peer) {
    && e.Admit? && e.peer == p && p in s.breakers
    && s.breakers[p].Opened? && s.breakers[p].since + cfg.timeout <= s.now
  }

  /** What a run has recorded for p since its breaker last began to probe - from whatever calls. */
  function SinceProbing<R>(cfg: Config, cl: Classifier, es: seq<Event<R>>, p: Peer): seq<Outcome>
    requires Run(Documented(cfg), cl, es).Some?
  {
    if es == [] then []
    else
      var e := es[|es| - 1];
      var s0 := Run(Documented(cfg), cl, es[..|es| - 1]).value;
      if BeginsProbing(cfg, s0, e, p) then []
      else
        SinceProbing(cfg, cl, es[..|es| - 1], p) +
        if e.Finish? && e.peer == p then [Outcome(s0.now, !Severe(cl, e.outcome))] else []
  }

  function BreakerOf<R>(s: Pool<State, R>, p: Peer): State {
    if p in s.breakers then s.breakers[p] else Closed(0)
  }

  /** These are n successes and nothing else. */
  predicate AllOk(h: seq<Outcome>, n: nat) {
    |h| == n && forall i :: 0 <= i < |h| ==> h[i].ok
  }

  lemma BreakerStep<R>(cfg: Config, cl: Classifier, es: seq<Event<R>>, p: Peer)
    requires es != [] && Run(Documented(cfg), cl, es).Some?
    ensures var es0, e := es[..|es| - 1], es[|es| - 1];
            var s0 := Run(Documented(cfg), cl, es0).value;
            BreakerOf(Run(Documented(cfg), cl, es).value, p) ==
            if e.Finish? && e.peer == p then Record(cfg, BreakerOf(s0, p), s0.now, !Severe(cl, e.outcome))
            else if BeginsProbing(cfg, s0, e, p) then HalfOpen(0)
            else BreakerOf(s0, p)
  {
    RecordedForStep(cfg, cl, es, p);
  }

  /** In any interleaving a half-open breaker has recorded successes only since it began to probe, fewer
      than it takes to close. */
  lemma {:induction false} HalfOpenCountsSuccesses<R>(cfg: Config, cl: Classifier, es: seq<Event<R>>, p: Peer)
    requires Run(Documented(cfg), cl, es).Some? && BreakerOf(Run(Documented(cfg), cl, es).value, p).HalfOpen?
    ensures var n := BreakerOf(Run(Documented(cfg), cl, es).value, p).successes;
            n < AtLeastOne(cfg.consecutiveSuccesses) && AllOk(SinceProbing(cfg, cl, es, p), n)
  {
    hide Step;
    if es != [] {
      var es0, e := es[..|es| - 1], es[|es| - 1];
      BreakerStep(cfg, cl, es, p);
      if !BeginsProbing(cfg, Run(Documented(cfg), cl, es0).value, e, p) {
        HalfOpenCountsSuccesses(cfg, cl, es0, p);
      }
    }
  }

  /**
   Leaving Half-Open, through the wrapper and in any interleaving, stragglers included: the breaker closes
   at an event exactly when all outcomes recorded for the peer since it began to probe are successes and
   there are now s of them, and it reopens exactly at a failure recorded for it.
   */
  lemma HalfOpenClosesExactly<R>(cfg: Config, cl: Classifier, es: seq<Event<R>>, p: Peer)
    requires es != [] && Run(Documented(cfg), cl, es).Some?
    requires BreakerOf(Run(Documented(cfg), cl, es[..|es| - 1]).value, p).HalfOpen?
    ensures var s0, s := Run(Documented(cfg), cl, es[..|es| - 1]).value, Run(Documented(cfg), cl, es).value;
            var e := es[|es| - 1];
            && (BreakerOf(s, p).Closed? <==> AllOk(SinceProbing(cfg, cl, es, p), AtLeastOne(cfg.consecutiveSuccesses)))
            && (BreakerOf(s, p).Opened? <==> e.Finish? && e.peer == p && Severe(cl, e.outcome))
            && (BreakerOf(s, p).Closed? ==> BreakerOf(s, p) == Closed(0))
            && (BreakerOf(s, p).Opened? ==> BreakerOf(s, p) == Opened(s0.now))
  {
    hide Step;
    HalfOpenCountsSuccesses(cfg, cl, es[..|es| - 1], p);
    BreakerStep(cfg, cl, es, p);
    var h0, h := SinceProbing(cfg, cl, es[..|es| - 1], p), SinceProbing(cfg, cl, es, p);
    var s0, e := Run(Documented(cfg), cl, es[..|es| - 1]).value, es[|es| - 1];
    if e.Finish? && e.peer == p {
      var o := Outcome(s0.now, !Severe(cl, e.outcome));
      assert h == h0 + [o] && h[|h0|] == o;
    } else {
      assert h == h0;
    }
  }

  /** What a run has recorded for p since its breaker last closed, or from the start. */
  function SinceClosed<R>(cfg: Config, cl: Classifier, es: seq<Event<R>>, p: Peer): seq<Outcome>
    requires Run(Documented(cfg), cl, es).Some?
  {
    if es == [] then []
    else
      var e := es[|es| - 1];
      var s0, s := Run(Documented(cfg), cl, es[..|es| - 1]).value, Run(Documented(cfg), cl, es).value;
      if !BreakerOf(s0, p).Closed? && BreakerOf(s, p).Closed? then []
      else
        SinceClosed(cfg, cl, es[..|es| - 1], p) +
        if e.Finish? && e.peer == p then [Outcome(s0.now, !Severe(cl, e.outcome))] else []
  }

  lemma TrailingFailuresExtended(h: seq<Outcome>, o: Outcome)
    ensures TrailingFailures(h + [o]) == if o.ok then 0 else TrailingFailures(h) + 1
  {
    assert (h + [o])[..|h|] == h;
  }

  lemma SinceClosedStep<R>(cfg: Config, cl: Classifier, es: seq<Event<R>>, p: Peer)
    requires es != [] && Run(Documented(cfg), cl, es).Some?
    requires BreakerOf(Run(Documented(cfg), cl, es[..|es| - 1]).value, p).Closed?
    ensures var e := es[|es| - 1];
            var before, after := SinceClosed(cfg, cl, es[..|es| - 1], p), SinceClosed(cfg, cl, es, p);
            TrailingFailures(after) ==
            if !(e.Finish? && e.peer == p) then TrailingFailures(before)
            else if Severe(cl, e.outcome) then TrailingFailures(before) + 1
            else 0
  {
    hide Step;
    var e, s0 := es[|es| - 1], Run(Documented(cfg), cl, es[..|es| - 1]).value;
    var before := SinceClosed(cfg, cl, es[..|es| - 1], p);
    if e.Finish? && e.peer == p {
      TrailingFailuresExtended(before, Outcome(s0.now, !Severe(cl, e.outcome)));
    } else {
      assert before + [] == before;
    }
  }

  /** At any time, after any number of recoveries and in any interleaving, a closed breaker counts the
      failures at the end of what was recorded since it last closed, and they are fewer than k. */
  lemma {:induction false} ClosedCountsFailures<R>(cfg: Config, cl: Classifier, es: seq<Event<R>>, p: Peer)
    requires Run(Documented(cfg), cl, es).Some? && BreakerOf(Run(Documented(cfg), cl, es).value, p).Closed?
    ensures BreakerOf(Run(Documented(cfg), cl, es).value, p).failures
            == TrailingFailures(SinceClosed(cfg, cl, es, p)) < AtLeastOne(cfg.consecutiveFailures)
  {
    hide Step;
    if es != [] {
      var es0 := es[..|es| - 1];
      BreakerStep(cfg, cl, es, p);
      if BreakerOf(Run(Documented(cfg), cl, es0).value, p).Closed? {
        ClosedCountsFailures(cfg, cl, es0, p);
        SinceClosedStep(cfg, cl, es, p);
      }
    }
  }

  /** And it opens exactly at the event that makes them k. */
  lemma ClosedOpensExactly<R>(cfg: Config, cl: Classifier, es: seq<Event<R>>, p: Peer)
    requires es != [] && Run(Documented(cfg), cl, es).Some?
    requires BreakerOf(Run(Documented(cfg), cl, es[..|es| - 1]).value, p).Closed?
    ensures var s0, s := Run(Documented(cfg), cl, es[..|es| - 1]).value, Run(Documented(cfg), cl, es).value;
            && (BreakerOf(s, p).Opened? <==>
                  TrailingFailures(SinceClosed(cfg, cl, es, p)) == AtLeastOne(cfg.consecutiveFailures))
            && (BreakerOf(s, p).Opened? ==> BreakerOf(s, p) == Opened(s0.now))
            && !BreakerOf(s, p).HalfOpen?
  {
    hide Step;
    ClosedCountsFailures(cfg, cl, es[..|es| - 1], p);
    BreakerStep(cfg, cl, es, p);
    SinceClosedStep(cfg, cl, es, p);
  }

  ghost predicate OnlyMild<R>(cl: Classifier, es: seq<Event<R>>) {
    forall e <- es :: e.Finish? ==> !Severe(cl, e.outcome)
  }

  lemma {:induction false} MildRecord<R>(cfg: Config, cl: Classifier, es: seq<Event<R>>, p: Peer)
    requires Run(Documented(cfg), cl, es).Some? && OnlyMild(cl, es)
    ensures forall o <- RecordedFor(cfg, cl, es, p) :: o.ok
  {
    if es != [] {
      MildRecord(cfg, cl, es[..|es| - 1], p);
    }
  }

  /** A run of successes and application errors, however long and however interleaved, leaves every
      breaker closed and rejects nothing. */
  lemma MildRunsNeverTrip<R>(cfg: Config, cl: Classifier, es: seq<Event<R>>, p: Peer)
    requires Run(Documented(cfg), cl, es).Some? && OnlyMild(cl, es)
    ensures var s := Run(Documented(cfg), cl, es).value;
            (p in s.breakers ==> s.breakers[p] == Closed(0)) && NoneRejected(s, p)
  {
    MildRecord(cfg, cl, es, p);
    var h := RecordedFor(cfg, cl, es, p);
    var k := AtLeastOne(cfg.consecutiveFailures);
    forall j | 0 <= j <= |h|
      ensures !EndsInFailures(h[..j], k)
    {
      if k <= j {
        assert h[..j][j - 1] == h[j - 1] && h[j - 1] in h;
      }
    }
    ClosedWithoutConsecutiveFailures(cfg, cl, es, p);
    if h != [] {
      assert h[|h| - 1] in h;
    }
  }

  lemma OpenStep<R>(cfg: Config, cl: Classifier, s: Pool<State, R>, e: Event<R>, p: Peer)
    requires p in s.breakers && s.breakers[p].Opened? && s.now < s.breakers[p].since + cfg.timeout
    requires Step(Documented(cfg), cl, s, e).Some?
    ensures var t := Step(Documented(cfg), cl, s, e).value;
            && p in t.breakers && t.breakers[p] == s.breakers[p] && s.now <= t.now
            && (forall c <- t.calls :: t.calls[c] == Running(p) ==> c in s.calls && s.calls[c] == Running(p))
  {
  }

  lemma TimePasses<R>(cfg: Config, cl: Classifier, s: Pool<State, R>, e: Event<R>)
    requires Step(Documented(cfg), cl, s, e).Some?
    ensures s.now <= Step(Documented(cfg), cl, s, e).value.now
  {
  }

  /** From the moment a breaker opens until its timeout has passed it lets no call through, whatever
      calls that were still running report meanwhile. */
  lemma {:induction false} OpenRejectsUntilTimeout<R>(cfg: Config, cl: Classifier, es: seq<Event<R>>, n: nat, p: Peer)
    requires n <= |es| && Run(Documented(cfg), cl, es).Some?
    requires Run(Documented(cfg), cl, es[..n]).Some?
    requires var s0 := Run(Documented(cfg), cl, es[..n]).value;
             && p in s0.breakers && s0.breakers[p].Opened?
             && Run(Documented(cfg), cl, es).value.now < s0.breakers[p].since + cfg.timeout
    ensures var s0, s := Run(Documented(cfg), cl, es[..n]).value, Run(Documented(cfg), cl, es).value;
            && p in s.breakers && s.breakers[p] == s0.breakers[p]
            && (forall c <- s.calls :: s.calls[c] == Running(p) ==> c in s0.calls && s0.calls[c] == Running(p))
  {
    hide Step;
    if n == |es| {
      assert es[..n] == es;
    } else {
      var es0 := es[..|es| - 1];
      assert es0[..n] == es[..n];
      TimePasses(cfg, cl, Run(Documented(cfg), cl, es0).value, es[|es| - 1]);
      OpenRejectsUntilTimeout(cfg, cl, es0, n, p);
      OpenStep(cfg, cl, Run(Documented(cfg), cl, es0).value, es[|es| - 1], p);
    }
  }

  // ---------------------------------------------------------------------------------------------
  // Which calls are let through, and recovery
  // ---------------------------------------------------------------------------------------------

  /** A call is let through exactly when the breaker is not open or its timeout has passed; the one that finds
      the timeout passed begins the probing, and a call turned away is told so and changes nothing. */
  lemma AdmitsExactly<R>(cfg: Config, cl: Classifier, s: Pool<State, R>, c: CallId, p: Peer)
    requires c in s.calls && s.calls[c] == Looked(p) && p in s.breakers
    ensures Step(Documented(cfg), cl, s, Event<R>.Admit(c, p)).Some?
    ensures var t := Step(Documented(cfg), cl, s, Event<R>.Admit(c, p)).value;
            var rejected := s.breakers[p].Opened? && s.now < s.breakers[p].since + cfg.timeout;
            && c in t.calls && p in t.breakers
            && (t.calls[c] == Running(p) <==> !rejected)
            && (t.calls[c] == Returned(p, Err(Open)) <==> rejected)
            && t.breakers[p] == (if s.breakers[p].Opened? && !rejected then HalfOpen(0) else s.breakers[p])
  {
  }

  /** One call of p from look-up to outcome, with a number of its own. */
  function OneCall<R>(c: CallId, p: Peer, outcome: Result<R, AnyError>): seq<Event<R>> {
    [LookUp(c, p), Event.Admit(c, p), Finish(c, p, outcome)]
  }

  function CallsInARow<R>(c: CallId, p: Peer, outcomes: seq<Result<R, AnyError>>): seq<Event<R>> {
    if outcomes == [] then []
    else
      var last := |outcomes| - 1;
      CallsInARow(c, p, outcomes[..last]) + OneCall(c + last, p, outcomes[last])
  }

  lemma OneCallSteps<R>(
    cfg: Config, cl: Classifier, s: Pool<State, R>, c: CallId, p: Peer, outcome: Result<R, AnyError>)
    returns (u: Pool<State, R>, v: Pool<State, R>, t: Pool<State, R>)
    requires c !in s.calls && p in s.breakers
    requires s.breakers[p].Opened? ==> s.breakers[p].since + cfg.timeout <= s.now
    ensures var b := Documented(cfg);
            && Step(b, cl, s, Event<R>.LookUp(c, p)) == Some(u)
            && Step(b, cl, u, Event<R>.Admit(c, p)) == Some(v)
            && Step(b, cl, v, Finish(c, p, outcome)) == Some(t)
    ensures t.now == s.now && t.calls == s.calls[c := Returned(p, Unwrap(Show(cl, outcome)))]
    ensures Unwrap(Show(cl, outcome)) != Err(Open)
    ensures var before := if s.breakers[p].Opened? then HalfOpen(0) else s.breakers[p];
            t.breakers == s.breakers[p := Record(cfg, before, s.now, !Severe(cl, outcome))]
  {
    ShownAsClassified(cl, outcome);
    hide Record, Show, Unwrap, Severe;
    var before := if s.breakers[p].Opened? then HalfOpen(0) else s.breakers[p];
    u := s.(calls := s.calls[c := Looked(p)]);
    v := u.(breakers := s.breakers[p := before], calls := u.calls[c := Running(p)]);
    t := v.(breakers := v.breakers[p := Record(cfg, before, s.now, !Severe(cl, outcome))],
            calls := v.calls[c := Returned(p, Unwrap(Show(cl, outcome)))]);
  }

  lemma OneCallRuns<R>(
    cfg: Config, cl: Classifier, es: seq<Event<R>>, s: Pool<State, R>, c: CallId, p: Peer, outcome: Result<R, AnyError>)
    returns (t: Pool<State, R>)
    requires Run(Documented(cfg), cl, es) == Some(s) && c !in s.calls && p in s.breakers
    requires s.breakers[p].Opened? ==> s.breakers[p].since + cfg.timeout <= s.now
    ensures Run(Documented(cfg), cl, es + OneCall(c, p, outcome)) == Some(t)
    ensures t.now == s.now && t.calls == s.calls[c := Returned(p, Unwrap(Show(cl, outcome)))]
    ensures Unwrap(Show(cl, outcome)) != Err(Open)
    ensures var before := if s.breakers[p].Opened? then HalfOpen(0) else s.breakers[p];
            t.breakers == s.breakers[p := Record(cfg, before, s.now, !Severe(cl, outcome))]
  {
    var b := Documented(cfg);
    var u, v;
    u, v, t := OneCallSteps(cfg, cl, s, c, p, outcome);
    hide Step, Record, Severe, Show, Unwrap, Run;
    var es1 := es + [Event<R>.LookUp(c, p)];
    var es2 := es1 + [Event<R>.Admit(c, p)];
    RunExtendedBy(b, cl, es, LookUp(c, p));
    RunExtendedBy(b, cl, es1, Event.Admit(c, p));
    RunExtendedBy(b, cl, es2, Finish(c, p, outcome));
    assert es2 + [Finish(c, p, outcome)] == es + OneCall(c, p, outcome);
  }

  lemma RunExtendedBy<S, R>(b: Breaker<S>, cl: Classifier, es: seq<Event<R>>, e: Event<R>)
    ensures Run(b, cl, es + [e]) == if Run(b, cl, es).None? then None else Step(b, cl, Run(b, cl, es).value, e)
  {
    assert (es + [e])[..|es|] == es;
  }

  /** None of the outcomes is severe. */
  ghost predicate AllMild<R>(cl: Classifier, outcomes: seq<Result<R, AnyError>>) {
    forall o <- outcomes :: !Severe(cl, o)
  }

  /** Call c was let through and has returned what its outcome shows. */
  ghost predicate Answered<R>(cl: Classifier, t: Pool<State, R>, c: CallId, p: Peer, outcome: Result<R, AnyError>) {
    c in t.calls && t.calls[c] == Returned(p, Unwrap(Show(cl, outcome))) && t.calls[c] != Returned(p, Err(Open))
  }

  /** The breaker after n successful probes of a breaker that was in this state. */
  function Probed(cfg: Config, s: State, n: nat): State {
    if n == 0 then s else if n < AtLeastOne(cfg.consecutiveSuccesses) then HalfOpen(n) else Closed(0)
  }

  lemma ProbeCounts(cfg: Config, s: State, n: nat, now: Time)
    requires s.Opened? && n < AtLeastOne(cfg.consecutiveSuccesses)
    ensures var before := Probed(cfg, s, n);
            && (before.Opened? ==> before == s)
            && Record(cfg, if before.Opened? then HalfOpen(0) else before, now, true) == Probed(cfg, s, n + 1)
    ensures Probed(cfg, s, 0) == s
  {
  }

  /** n calls in a row with mild outcomes, after the timeout: all run, and the breaker counts them. */
  lemma {:induction false} ProbesRun<R>(
    cfg: Config, cl: Classifier, es: seq<Event<R>>, s: Pool<State, R>, c: CallId, p: Peer,
    outcomes: seq<Result<R, AnyError>>)
    returns (t: Pool<State, R>)
    requires Run(Documented(cfg), cl, es) == Some(s) && p in s.breakers && forall d <- s.calls :: d < c
    requires s.breakers[p].Opened? && s.breakers[p].since + cfg.timeout <= s.now
    requires AllMild(cl, outcomes) && |outcomes| <= AtLeastOne(cfg.consecutiveSuccesses)
    ensures Run(Documented(cfg), cl, es + CallsInARow(c, p, outcomes)) == Some(t)
    ensures t.now == s.now && forall d <- t.calls :: d < c + |outcomes|
    ensures p in t.breakers && t.breakers[p] == Probed(cfg, s.breakers[p], |outcomes|)
    ensures forall i :: 0 <= i < |outcomes| ==> Answered(cl, t, c + i, p, outcomes[i])
  {
    hide Run, Step, Severe, Show, Unwrap, Record;
    if outcomes == [] {
      t := s;
      assert es + [] == es;
    } else {
      var last := |outcomes| - 1;
      var init := outcomes[..last];
      assert forall o <- init :: o in outcomes;
      var u := ProbesRun(cfg, cl, es, s, c, p, init);
      assert !Severe(cl, outcomes[last]);
      ProbeCounts(cfg, s.breakers[p], last, s.now);
      hide Probed;
      t := OneCallRuns(cfg, cl, es + CallsInARow(c, p, init), u, c + last, p, outcomes[last]);
      assert es + CallsInARow(c, p, outcomes) ==
             (es + CallsInARow(c, p, init)) + OneCall(c + last, p, outcomes[last]);
      forall i | 0 <= i < |outcomes|
        ensures Answered(cl, t, c + i, p, outcomes[i])
      {
        assert i < last ==> init[i] == outcomes[i] && Answered(cl, u, c + i, p, init[i]);
      }
    }
  }

  /**
   Recovery: once the timeout of an open breaker has passed, any s calls of the peer made one after the other,
   whose outcomes are not severe, are all let through and get their own results, and close the breaker.
   */
  lemma RecoversAfterTimeout<R>(
    cfg: Config, cl: Classifier, es: seq<Event<R>>, c: CallId, p: Peer, outcomes: seq<Result<R, AnyError>>)
    requires Run(Documented(cfg), cl, es).Some?
    requires var s := Run(Documented(cfg), cl, es).value;
             && p in s.breakers && s.breakers[p].Opened? && s.breakers[p].since + cfg.timeout <= s.now
             && forall d <- s.calls :: d < c
    requires AllMild(cl, outcomes) && |outcomes| == AtLeastOne(cfg.consecutiveSuccesses)
    ensures Run(Documented(cfg), cl, es + CallsInARow(c, p, outcomes)).Some?
    ensures var t := Run(Documented(cfg), cl, es + CallsInARow(c, p, outcomes)).value;
            && p in t.breakers && t.breakers[p] == Closed(0)
            && forall i :: 0 <= i < |outcomes| ==> Answered(cl, t, c + i, p, outcomes[i])
  {
    hide Run, Step, CallsInARow;
    var t := ProbesRun(cfg, cl, es, Run(Documented(cfg), cl, es).value, c, p, outcomes);
  }
}
