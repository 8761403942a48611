/**
 Per-peer circuit breakers (zel_core/src/protocol/circuit_breaker.rs).

 The single breaker comes from a library that is not part of this model.  It is a parameter: a state,
 whether it admits a call, and how it records an outcome.  What the wrapper promises is proved for any
 such breaker; the state machine that the wrapper's documentation describes is one instance.
 */
module CircuitBreaker {
  import opened Wrappers
  import opened ErrorClassification

  type Peer = string
  type CallId = nat
  type Time = nat

  /** `admit` may change the state (an open breaker starts probing); `record` is told of a success. */
  datatype Breaker<!S> = Breaker(init: S, admit: (S, Time) -> (bool, S), record: (S, Time, bool) -> S)

  // ---------------------------------------------------------------------------------------------
  // One call: severe errors are failures of the breaker, application errors are not
  // ---------------------------------------------------------------------------------------------

  datatype ServiceError = AppError(message: string) | InfraError(message: string) | SysError(message: string)
  {
    function Severity(): Severity {
      match this case AppError(_) => Application case InfraError(_) => Infrastructure case SysError(_) => SystemFailure
    }

    function Display(): string {
      match this
      case AppError(m) => "Application error: " + m
      case InfraError(m) => "Infrastructure error: " + m
      case SysError(m) => "System failure: " + m
    }

    static function From(severity: Severity, message: string): ServiceError {
      match severity
      case Application => AppError(message)
      case Infrastructure => InfraError(message)
      case SystemFailure => SysError(message)
    }
  }

  datatype BreakerError = Open | Operation(error: ServiceError) | Internal(message: string)

  /** What the breaker is shown: Ok(Ok) success, Ok(Err) an application error, Err a severe one. */
  type Shown<R> = Result<Result<R, ServiceError>, ServiceError>

  function Show<R>(classifier: Classifier, outcome: Result<R, AnyError>): Shown<R> {
    match outcome
    case Ok(value) => Ok(Ok(value))
    case Err(e) =>
      var severity := classifier.Classify(e);
      var error := ServiceError.From(severity, e.Display());
      if severity == Application then Ok(Err(error)) else Err(error)
  }

  function Unwrap<R>(shown: Shown<R>): Result<R, BreakerError> {
    match shown
    case Ok(Ok(value)) => Ok(value)
    case Ok(Err(e)) => Err(Operation(e))
    case Err(e) => Err(Operation(e))
  }

  /** Whether the classifier makes this outcome a failure of the breaker. */
  predicate Severe<R>(classifier: Classifier, outcome: Result<R, AnyError>) {
    outcome.Err? && classifier.Classify(outcome.error) != Application
  }

  /** The breaker records a failure for the severe outcomes and no others, and the caller gets the value,
      or an error of the severity the classifier saw. */
  lemma ShownAsClassified<R>(classifier: Classifier, outcome: Result<R, AnyError>)
    ensures Show(classifier, outcome).Err? <==> Severe(classifier, outcome)
    ensures match Unwrap(Show(classifier, outcome))
            case Ok(value) => outcome == Ok(value)
            case Err(Operation(error)) =>
              && outcome.Err? && error.Severity() == classifier.Classify(outcome.error)
              && error.message == outcome.error.Display()
            case _ => false
  {
  }

  // ---------------------------------------------------------------------------------------------
  // All peers, with calls under way at the same time
  // ---------------------------------------------------------------------------------------------

  datatype Call<R> =
    | Looked(peer: Peer)      // the peer's breaker has been looked up or created
    | Running(peer: Peer)     // admitted, operation under way
    | Returned(peer: Peer, result: Result<R, BreakerError>)

  datatype Pool<!S, R> = Pool(breakers: map<Peer, S>, now: Time, calls: map<CallId, Call<R>>)

  datatype Event<R> =
    | LookUp(c: CallId, peer: Peer)
    | Admit(c: CallId, peer: Peer)
    | Finish(c: CallId, peer: Peer, outcome: Result<R, AnyError>)
    | Tick(elapsed: Time)

  function Init<S, R>(): Pool<S, R> {
    Pool(map[], 0, map[])
  }

  function Step<S, R>(b: Breaker<S>, cl: Classifier, s: Pool<S, R>, e: Event<R>): Option<Pool<S, R>> {
    match e
    case Tick(elapsed) => Some(s.(now := s.now + elapsed))
    case LookUp(c, p) =>
      if c in s.calls then None
      else Some(s.(breakers := if p in s.breakers then s.breakers else s.breakers[p := b.init],
                   calls := s.calls[c := Looked(p)]))
    case Admit(c, p) =>
      if c !in s.calls || s.calls[c] != Looked(p) || p !in s.breakers then None
      else
        var (admitted, state) := b.admit(s.breakers[p], s.now);
        Some(s.(breakers := s.breakers[p := state],
                calls := s.calls[c := if admitted then Running(p) else Returned(p, Err(Open))]))
    case Finish(c, p, outcome) =>
      if c !in s.calls || s.calls[c] != Running(p) || p !in s.breakers then None
      else
        Some(s.(breakers := s.breakers[p := b.record(s.breakers[p], s.now, Show(cl, outcome).Ok?)],
                calls := s.calls[c := Returned(p, Unwrap(Show(cl, outcome)))]))
  }

  function Run<S, R>(b: Breaker<S>, cl: Classifier, es: seq<Event<R>>): Option<Pool<S, R>> {
    if es == [] then Some(Init())
    else
      var t := Run(b, cl, es[..|es| - 1]);
      if t.None? then None else Step(b, cl, t.value, es[|es| - 1])
  }

  // ---------------------------------------------------------------------------------------------
  // Peers do not affect each other
  // ---------------------------------------------------------------------------------------------

  /** The part of a pool that belongs to one peer. */
  function Of<S, R>(s: Pool<S, R>, p: Peer): Pool<S, R> {
    Pool(map q <- s.breakers | q == p :: s.breakers[q], s.now,
         map c <- s.calls | s.calls[c].peer == p :: s.calls[c])
  }

  predicate Concerns<R>(e: Event<R>, p: Peer) {
    e.Tick? || e.peer == p
  }

  function EventsOf<R>(es: seq<Event<R>>, p: Peer): seq<Event<R>> {
    if es == [] then []
    else EventsOf(es[..|es| - 1], p) + if Concerns(es[|es| - 1], p) then [es[|es| - 1]] else []
  }

  lemma OfUpdated<S, R>(s: Pool<S, R>, p: Peer, state: S, c: CallId, call: Call<R>)
    requires call.peer == p
    ensures Of(s.(breakers := s.breakers[p := state], calls := s.calls[c := call]), p) ==
            Of(s, p).(breakers := Of(s, p).breakers[p := state], calls := Of(s, p).calls[c := call])
  {
    var t := s.(breakers := s.breakers[p := state], calls := s.calls[c := call]);
    assert Of(t, p).breakers == Of(s, p).breakers[p := state];
    assert Of(t, p).calls == Of(s, p).calls[c := call];
  }

  lemma OfUntouched<S, R>(s: Pool<S, R>, p: Peer, q: Peer, state: S, c: CallId, call: Call<R>)
    requires q != p && call.peer == q && (c in s.calls ==> s.calls[c].peer == q)
    ensures Of(s.(breakers := s.breakers[q := state], calls := s.calls[c := call]), p) == Of(s, p)
  {
    var t := s.(breakers := s.breakers[q := state], calls := s.calls[c := call]);
    assert Of(t, p).breakers == Of(s, p).breakers;
    assert Of(t, p).calls == Of(s, p).calls;
  }

  lemma OwnStep<S, R>(b: Breaker<S>, cl: Classifier, s: Pool<S, R>, e: Event<R>, p: Peer)
    requires Step(b, cl, s, e).Some? && Concerns(e, p)
    ensures Step(b, cl, Of(s, p), e) == Some(Of(Step(b, cl, s, e).value, p))
  {
    match e {
      case Tick(_) =>
      case LookUp(c, _) =>
        var state := if p in s.breakers then s.breakers[p] else b.init;
        assert Step(b, cl, s, e).value == s.(breakers := s.breakers[p := state], calls := s.calls[c := Looked(p)]);
        OfUpdated(s, p, state, c, Looked(p));
        assert p in s.breakers ==> Of(s, p).breakers[p := state] == Of(s, p).breakers;
      case Admit(c, _) =>
        var (admitted, state) := b.admit(s.breakers[p], s.now);
        OfUpdated(s, p, state, c, if admitted then Running(p) else Returned(p, Err(Open)));
      case Finish(c, _, outcome) =>
        var state := b.record(s.breakers[p], s.now, Show(cl, outcome).Ok?);
        OfUpdated(s, p, state, c, Returned(p, Unwrap(Show(cl, outcome))));
    }
  }

  lemma OtherStep<S, R>(b: Breaker<S>, cl: Classifier, s: Pool<S, R>, e: Event<R>, p: Peer)
    requires Step(b, cl, s, e).Some? && !Concerns(e, p)
    ensures Of(Step(b, cl, s, e).value, p) == Of(s, p)
  {
    match e {
      case LookUp(c, q) =>
        var state := if q in s.breakers then s.breakers[q] else b.init;
        assert Step(b, cl, s, e).value == s.(breakers := s.breakers[q := state], calls := s.calls[c := Looked(q)]);
        OfUntouched(s, p, q, state, c, Looked(q));
      case Admit(c, q) =>
        var (admitted, state) := b.admit(s.breakers[q], s.now);
        OfUntouched(s, p, q, state, c, if admitted then Running(q) else Returned(q, Err(Open)));
      case Finish(c, q, outcome) =>
        var state := b.record(s.breakers[q], s.now, Show(cl, outcome).Ok?);
        OfUntouched(s, p, q, state, c, Returned(q, Unwrap(Show(cl, outcome))));
    }
  }

  /**
   Whatever other peers do and however their calls interleave, peer p's breaker, its calls and their
   results are those of the run in which only p's calls occur - for any breaker and any classifier.
   */
  lemma {:induction false} PeersAreIsolated<S, R>(b: Breaker<S>, cl: Classifier, es: seq<Event<R>>, p: Peer)
    requires Run(b, cl, es).Some?
    ensures Run(b, cl, EventsOf(es, p)) == Some(Of(Run(b, cl, es).value, p))
  {
    if es == [] {
      assert Of(Init<S, R>(), p) == Init();
    } else {
      var es0, e := es[..|es| - 1], es[|es| - 1];
      var s := Run(b, cl, es0).value;
      PeersAreIsolated(b, cl, es0, p);
      if Concerns(e, p) {
        OwnStep(b, cl, s, e, p);
        assert EventsOf(es, p)[..|EventsOf(es0, p)|] == EventsOf(es0, p);
      } else {
        OtherStep(b, cl, s, e, p);
        assert EventsOf(es, p) == EventsOf(es0, p);
      }
    }
  }

  /** How often a breaker was created for p during a run. */
  function Creations<S, R>(b: Breaker<S>, cl: Classifier, es: seq<Event<R>>, p: Peer): nat
    requires Run(b, cl, es).Some?
  {
    if es == [] then 0
    else
      var e := es[|es| - 1];
      Creations(b, cl, es[..|es| - 1], p) +
      if e.LookUp? && e.peer == p && p !in Run(b, cl, es[..|es| - 1]).value.breakers then 1 else 0
  }

  ghost predicate CalledBy<R>(es: seq<Event<R>>, p: Peer) {
    exists e <- es :: e.LookUp? && e.peer == p
  }

  /** One breaker serves a peer for the whole run: it is created by the peer's first call and kept. */
  lemma {:induction false} OneBreakerPerPeer<S, R>(b: Breaker<S>, cl: Classifier, es: seq<Event<R>>, p: Peer)
    requires Run(b, cl, es).Some?
    ensures Creations(b, cl, es, p) == if CalledBy(es, p) then 1 else 0
    ensures p in Run(b, cl, es).value.breakers <==> CalledBy(es, p)
  {
    if es != [] {
      var es0, e := es[..|es| - 1], es[|es| - 1];
      OneBreakerPerPeer(b, cl, es0, p);
      assert es == es0 + [e];
      assert CalledBy(es, p) <==> CalledBy(es0, p) || (e.LookUp? && e.peer == p);
    }
  }

  // ---------------------------------------------------------------------------------------------
  // The manager as an object, one call at a time
  // ---------------------------------------------------------------------------------------------

  /** `PeerCircuitBreakers`: the locked map.  `op` is what the operation would return. */
  class PeerCircuitBreakers<!S> {
    var breakers: map<Peer, S>
    const breaker: Breaker<S>
    const classifier: Classifier

    constructor (breaker: Breaker<S>, classifier: Classifier)
      ensures this.breaker == breaker && this.classifier == classifier && breakers == map[]
    {
      this.breaker, this.classifier, this.breakers := breaker, classifier, map[];
    }

    /** Runs the three events of one call in a row; the operation runs only if the breaker admits it. */
    method CallAsync<R>(peer: Peer, now: Time, op: Result<R, AnyError>)
      returns (result: Result<R, BreakerError>, ran: bool)
      modifies this
      ensures var s := Pool(old(breakers), now, map[]);
              var looked := Step(breaker, classifier, s, LookUp(0, peer));
              var admitted := Step(breaker, classifier, looked.value, Admit(0, peer));
              && admitted.Some?
              && ran == (admitted.value.calls[0] == Running(peer))
              && var last := if ran then Step(breaker, classifier, admitted.value, Finish(0, peer, op)) else admitted;
                 last.Some? && last.value.breakers == breakers && last.value.calls[0] == Returned(peer, result)
    {
      if peer !in breakers {
        breakers := breakers[peer := breaker.init];
      }
      var (admitted, state) := breaker.admit(breakers[peer], now);
      breakers := breakers[peer := state];
      ran := admitted;
      if !admitted {
        return Err(Open), false;
      }
      var shown;
      match op {
        case Ok(value) => shown := Ok(Ok(value));
        case Err(e) =>
          var severity := classifier.Classify(e);
          var error := ServiceError.From(severity, e.Display());
          match severity {
            case Application => shown := Ok(Err(error));
            case Infrastructure => shown := Err(error);
            case SystemFailure => shown := Err(error);
          }
      }
      breakers := breakers[peer := breaker.record(breakers[peer], now, shown.Ok?)];
      match shown {
        case Ok(Ok(value)) => result := Ok(value);
        case Ok(Err(e)) => result := Err(Operation(e));
        case Err(e) => result := Err(Operation(e));
      }
    }
  }
}
