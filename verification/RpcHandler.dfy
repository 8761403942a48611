/** Running an RPC handler behind the peer's circuit breaker (zel_core/src/protocol/handlers/rpc.rs). */
module RpcHandler {
  import opened Wrappers
  import opened ErrorClassification
  import opened CircuitBreaker

  /** The error the operation reports to the breaker: the text of the handler's error, marked again with
      its severity. */
  function ToAny(e: ResourceError): AnyError {
    var plain := AnyError([], Node(OtherKind, e.Display()), []);
    match e.Severity()
    case Application => plain.AsApplication()
    case Infrastructure => plain.AsInfrastructure()
    case SystemFailure => plain.AsSystemFailure()
  }

  function ToOutcome<R>(handled: Result<R, ResourceError>): Result<R, AnyError> {
    match handled case Ok(value) => Ok(value) case Err(e) => Err(ToAny(e))
  }

  function ToReply<R>(peer: Peer, result: Result<R, BreakerError>): Result<R, ResourceError> {
    match result
    case Ok(value) => Ok(value)
    case Err(Open) => Err(CircuitBreakerOpen(peer))
    case Err(Operation(e)) => Err(CallbackError(e.Display(), e.Severity(), None))
    case Err(Internal(m)) => Err(CallbackError(m, Application, None))
  }

  datatype Execution<S, R> = Execution(reply: Result<R, ResourceError>, breaker: S, ran: bool)

  /** One request of a peer whose breaker is in state s; `handled` is what the handler returns if it
      is run. */
  function Execute<S, R>(b: Breaker<S>, cl: Classifier, s: S, now: Time, peer: Peer, handled: Result<R, ResourceError>)
    : Execution<S, R>
  {
    var (admitted, t) := b.admit(s, now);
    if !admitted then Execution(ToReply(peer, Err(Open)), t, false)
    else
      var shown := Show(cl, ToOutcome(handled));
      Execution(ToReply(peer, Unwrap(shown)), b.record(t, now, shown.Ok?), true)
  }

  /** What Execute says of a request is what the wrapper does in a call of its own: look-up, admission and, if
      admitted, the recorded outcome of the handler. */
  lemma ExecuteIsOneCall<S, R>(
    b: Breaker<S>, cl: Classifier, pool: Pool<S, R>, c: CallId, peer: Peer, handled: Result<R, ResourceError>)
    requires c !in pool.calls
    ensures var state := if peer in pool.breakers then pool.breakers[peer] else b.init;
            var x := Execute(b, cl, state, pool.now, peer, handled);
            var looked := Step(b, cl, pool, LookUp(c, peer));
            var admitted := Step(b, cl, looked.value, Admit(c, peer));
            && looked.Some? && admitted.Some?
            && (x.ran <==> admitted.value.calls[c] == Running(peer))
            && var last := if x.ran then Step(b, cl, admitted.value, Finish(c, peer, ToOutcome(handled))) else admitted;
               && last.Some? && last.value.now == pool.now
               && last.value.breakers == pool.breakers[peer := x.breaker]
               && last.value.calls.Keys == pool.calls.Keys + {c}
               && last.value.calls[c].Returned? && ToReply(peer, last.value.calls[c].result) == x.reply
  {
    var state := if peer in pool.breakers then pool.breakers[peer] else b.init;
    var (admitted, after) := b.admit(state, pool.now);
    UpdatedTwice(pool.breakers, peer, state, after);
    var looked := pool.(breakers := pool.breakers[peer := state], calls := pool.calls[c := Looked(peer)]);
    assert Step(b, cl, pool, LookUp(c, peer)) == Some(looked);
    var call: Call<R> := if admitted then Running(peer) else Returned(peer, Err(Open));
    var tried := looked.(breakers := pool.breakers[peer := after], calls := looked.calls[c := call]);
    assert Step(b, cl, looked, Admit(c, peer)) == Some(tried);
    if admitted {
      UpdatedTwice(pool.breakers, peer, after, b.record(after, pool.now, Show(cl, ToOutcome(handled)).Ok?));
    }
  }

  lemma UpdatedTwice<K, V>(m: map<K, V>, k: K, v: V, w: V)
    ensures m[k := v][k := w] == m[k := w]
    ensures k in m ==> m[k := m[k]] == m
  {
  }

  lemma RunExtended<S, R>(b: Breaker<S>, cl: Classifier, es: seq<Event<R>>, e: Event<R>)
    ensures Run(b, cl, es + [e]) == if Run(b, cl, es).None? then None else Step(b, cl, Run(b, cl, es).value, e)
  {
    assert (es + [e])[..|es|] == es;
  }

  /** So any run of the wrapper can go on with such a request. */
  lemma OneCallMore<S, R>(
    b: Breaker<S>, cl: Classifier, es: seq<Event<R>>, s: Pool<S, R>,
    c: CallId, peer: Peer, handled: Result<R, ResourceError>)
    returns (fs: seq<Event<R>>, t: Pool<S, R>)
    requires Run(b, cl, es) == Some(s) && c !in s.calls
    ensures Run(b, cl, fs) == Some(t)
    ensures var state := if peer in s.breakers then s.breakers[peer] else b.init;
            var x := Execute(b, cl, state, s.now, peer, handled);
            && t.now == s.now && t.breakers == s.breakers[peer := x.breaker]
            && t.calls.Keys == s.calls.Keys + {c}
            && t.calls[c].Returned? && ToReply(peer, t.calls[c].result) == x.reply
  {
    ExecuteIsOneCall(b, cl, s, c, peer, handled);
    var x := Execute(b, cl, if peer in s.breakers then s.breakers[peer] else b.init, s.now, peer, handled);
    hide Run, Step, Execute, ToReply;
    var e := LookUp(c, peer);
    RunExtended(b, cl, es, e);
    fs, t := es + [e], Step(b, cl, s, e).value;
    e := Admit(c, peer);
    RunExtended(b, cl, fs, e);
    fs, t := fs + [e], Step(b, cl, t, e).value;
    if x.ran {
      e := Finish(c, peer, ToOutcome(handled));
      RunExtended(b, cl, fs, e);
      fs, t := fs + [e], Step(b, cl, t, e).value;
    }
  }

  lemma MarkedWithSeverity(e: ResourceError)
    ensures Default.Classify(ToAny(e)) == e.Severity()
  {
    var plain := AnyError([], Node(OtherKind, e.Display()), []);
    assert !IsInfrastructureError(plain) by {
      assert plain.Chain() == [plain.error];
    }
    var mark := match e.Severity()
      case Application => MarkApplication
      case Infrastructure => MarkInfrastructure
      case SystemFailure => MarkSystemFailure;
    assert AllMarked(plain, [mark][..0]) == plain;
    LastSevereMarkDecides(plain, [mark]);
  }

  /** With any classifier: the client gets the severity the classifier gave, and the breaker records a
      failure exactly when that is not Application; a value passes unchanged and is a success. */
  lemma ReplyFollowsClassifier<S, R>(
    b: Breaker<S>, cl: Classifier, s: S, now: Time, peer: Peer, handled: Result<R, ResourceError>)
    requires b.admit(s, now).0
    ensures var x := Execute(b, cl, s, now, peer, handled);
            && x.ran
            && match handled
               case Ok(value) => x.reply == Ok(value) && x.breaker == b.record(b.admit(s, now).1, now, true)
               case Err(e) =>
                 var severity := cl.Classify(ToAny(e));
                 && x.reply.Err? && x.reply.error.CallbackError? && x.reply.error.Severity() == severity
                 && x.breaker == b.record(b.admit(s, now).1, now, severity == Application)
  {
    ShownAsClassified(cl, ToOutcome(handled));
  }

  /** Under the default classifier severity survives: what the handler returned, what the client sees
      and what the breaker records agree. */
  lemma SeveritySurvives<S, R>(b: Breaker<S>, s: S, now: Time, peer: Peer, e: ResourceError)
    requires b.admit(s, now).0
    ensures var x := Execute<S, R>(b, Default, s, now, peer, Err(e));
            && x.ran && x.reply.Err? && x.reply.error.Severity() == e.Severity()
            && x.breaker == b.record(b.admit(s, now).1, now, e.Severity() == Application)
  {
    MarkedWithSeverity(e);
    ReplyFollowsClassifier<S, R>(b, Default, s, now, peer, Err(e));
  }

  /** The classifier that counts every error keeps the severity of system failures only. */
  lemma AllErrorsLosesSeverity<S, R>(b: Breaker<S>, s: S, now: Time, peer: Peer, e: ResourceError)
    requires b.admit(s, now).0
    ensures var x := Execute<S, R>(b, AllErrors, s, now, peer, Err(e));
            x.reply.Err? && (x.reply.error.Severity() == e.Severity() <==> e.Severity() == SystemFailure)
  {
    ReplyFollowsClassifier<S, R>(b, AllErrors, s, now, peer, Err(e));
  }

  // ---------------------------------------------------------------------------------------------
  // Forwarding: a handler that returns the error it got from another server
  // ---------------------------------------------------------------------------------------------

  /** The error a client sees for a handler's error, when the breaker admits the call. */
  function Sent(peer: Peer, e: ResourceError): ResourceError {
    ToReply<()>(peer, Unwrap(Show(Default, Err(ToAny(e))))).error
  }

  function SentOver(peers: seq<Peer>, e: ResourceError): ResourceError {
    if peers == [] then e else Sent(peers[|peers| - 1], SentOver(peers[..|peers| - 1], e))
  }

  predicate EndsWith(s: string, t: string) {
    |t| <= |s| && s[|s| - |t|..] == t
  }

  lemma EndsWithPrefix(p: string, s: string, t: string)
    requires EndsWith(s, t)
    ensures EndsWith(p + s, t)
  {
    assert (p + s)[|p + s| - |t|..] == s[|s| - |t|..];
  }

  lemma SentKeeps(peer: Peer, e: ResourceError)
    ensures Sent(peer, e).Severity() == e.Severity()
    ensures Sent(peer, e).CallbackError? && EndsWith(Sent(peer, e).message, e.Display())
  {
    MarkedWithSeverity(e);
    ShownAsClassified<()>(Default, Err(ToAny(e)));
    var d := e.Display();
    EndsWithPrefix("System failure: ", d, d);
    EndsWithPrefix("Application error: ", d, d);
    EndsWithPrefix("Infrastructure error: ", d, d);
    EndsWithPrefix("System failure: ", "System failure: " + d, d);
  }

  /** Over any number of servers that forward each other's error, the last client still sees the severity
      the first handler gave, and a message that ends with the first error's text. */
  lemma {:induction false} SeveritySurvivesForwarding(peers: seq<Peer>, e: ResourceError)
    ensures SentOver(peers, e).Severity() == e.Severity()
    ensures peers != [] ==> SentOver(peers, e).CallbackError? && EndsWith(SentOver(peers, e).message, e.Display())
  {
    if peers != [] {
      var last, before := peers[|peers| - 1], SentOver(peers[..|peers| - 1], e);
      SeveritySurvivesForwarding(peers[..|peers| - 1], e);
      SentKeeps(last, before);
      if |peers| > 1 {
        EndsWithPrefix("Callback execution failed: ", before.message, e.Display());
        EndsWithTransitive(Sent(last, before).message, before.Display(), e.Display());
      }
    }
  }

  lemma EndsWithTransitive(s: string, t: string, u: string)
    requires EndsWith(s, t) && EndsWith(t, u)
    ensures EndsWith(s, u)
  {
    assert s[|s| - |u|..] == t[|t| - |u|..];
  }
}
