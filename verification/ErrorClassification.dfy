/**
 Errors and their severity: `ResourceError` (zel_types/src/lib.rs), `anyhow` error chains and the
 classifier that decides which of them count against a circuit breaker
 (zel_core/src/protocol/error_classification.rs).
 */
module ErrorClassification {
  import opened Wrappers

  datatype Severity = Infrastructure | SystemFailure | Application

  // ---------------------------------------------------------------------------------------------
  // Errors that travel between client and server
  // ---------------------------------------------------------------------------------------------

  datatype ResourceError =
    | ServiceNotFound(service: string)
    | ResourceNotFound(service: string, resource: string)
    | CallbackError(message: string, severity: Severity, context: Option<string>)
    | SerializationError(text: string)
    | CircuitBreakerOpen(peerId: string)
  {
    function Severity(): Severity {
      match this
      case CallbackError(_, severity, _) => severity
      case CircuitBreakerOpen(_) => Infrastructure
      case _ => Application
    }

    function Display(): string {
      match this
      case ServiceNotFound(service) => "Service '" + service + "' not found"
      case ResourceNotFound(service, resource) =>
        "Resource '" + resource + "' not found in service '" + service + "'"
      case CallbackError(message, _, _) => "Callback execution failed: " + message
      case SerializationError(text) => "Serialization error: " + text
      case CircuitBreakerOpen(peerId) => "Circuit breaker open for peer " + peerId
    }
  }

  // ---------------------------------------------------------------------------------------------
  // Error chains
  // ---------------------------------------------------------------------------------------------

  /** The concrete types the classifier asks for. */
  datatype ErrorKind =
    | ContextLayer
    | FailureMarker
    | IoError
    | Elapsed
    | ConnectError
    | ReadError
    | WriteError
    | ConnectionError
    | OtherKind

  datatype Node = Node(kind: ErrorKind, text: string)

  /** An `anyhow::Error`: context layers, outermost first, around an error value followed by its
      `source()` chain. */
  datatype AnyError = AnyError(contexts: seq<string>, error: Node, sources: seq<Node>)
  {
    function Chain(): seq<Node> {
      seq(|contexts|, i requires 0 <= i < |contexts| => Node(ContextLayer, contexts[i])) + [error] + sources
    }

    function Display(): string {
      if contexts != [] then contexts[0] else error.text
    }

    /** `Error::is`: looks through the context layers, not along the sources. */
    predicate Is(kind: ErrorKind)
      requires kind != ContextLayer
    {
      error.kind == kind
    }

    function Context(c: string): AnyError {
      this.(contexts := [c] + contexts)
    }

    function AsSystemFailure(): AnyError {
      AnyError([], Node(FailureMarker, "System failure: " + Display()), Chain())
    }

    function AsInfrastructure(): AnyError {
      AnyError([], Node(IoError, Display()), [])
    }

    function AsApplication(): AnyError {
      this
    }
  }

  predicate IsInfrastructureKind(k: ErrorKind) {
    k.IoError? || k.Elapsed? || k.ConnectError? || k.ReadError? || k.WriteError? || k.ConnectionError?
  }

  predicate IsInfrastructureError(e: AnyError) {
    exists n <- e.Chain() :: IsInfrastructureKind(n.kind)
  }

  datatype Classifier =
    | Default
    | AllErrors
    | Custom(f: AnyError -> Severity)
  {
    function Classify(e: AnyError): Severity {
      match this
      case Default =>
        if e.Is(FailureMarker) then SystemFailure
        else if IsInfrastructureError(e) then Infrastructure
        else Application
      case AllErrors => SystemFailure
      case Custom(f) => f(e)
    }
  }

  /** Which severity an error that travels has: its own if a handler gave it one, infrastructure if the breaker
      is open, otherwise that of an application error. */
  lemma SeverityOf(e: ResourceError)
    ensures e.Severity() == SystemFailure <==> e.CallbackError? && e.severity == SystemFailure
    ensures e.Severity() == Infrastructure <==>
            e.CircuitBreakerOpen? || (e.CallbackError? && e.severity == Infrastructure)
  {
  }

  /** Which errors are which: a marked system failure, then anything with an I/O, time-out or transport error as
      its value or among its causes - context layers count for nothing -, then all others. */
  lemma DefaultClassifiesExactly(e: AnyError)
    ensures Default.Classify(e) == SystemFailure <==> e.error.kind == FailureMarker
    ensures Default.Classify(e) == Infrastructure <==>
            && e.error.kind != FailureMarker
            && exists n <- [e.error] + e.sources ::
                 n.kind in {IoError, Elapsed, ConnectError, ReadError, WriteError, ConnectionError}
    ensures AllErrors.Classify(e) == SystemFailure && forall f :: Custom(f).Classify(e) == f(e)
  {
    var causes := [e.error] + e.sources;
    var layers := seq(|e.contexts|, i requires 0 <= i < |e.contexts| => Node(ContextLayer, e.contexts[i]));
    assert e.Chain() == layers + causes;
    assert forall n <- layers :: n.kind == ContextLayer;
    assert forall n <- causes :: n in e.Chain();
  }

  // ---------------------------------------------------------------------------------------------
  // Marking errors
  // ---------------------------------------------------------------------------------------------

  datatype Mark = MarkSystemFailure | MarkInfrastructure | MarkApplication | AddContext(c: string)

  function Marked(e: AnyError, m: Mark): AnyError {
    match m
    case MarkSystemFailure => e.AsSystemFailure()
    case MarkInfrastructure => e.AsInfrastructure()
    case MarkApplication => e.AsApplication()
    case AddContext(c) => e.Context(c)
  }

  /** Marks applied one after the other, the last of the sequence last. */
  function AllMarked(e: AnyError, ms: seq<Mark>): AnyError {
    if ms == [] then e else Marked(AllMarked(e, ms[..|ms| - 1]), ms[|ms| - 1])
  }

  function LastSevere(ms: seq<Mark>): Option<Severity> {
    if ms == [] then None
    else match ms[|ms| - 1]
      case MarkSystemFailure => Some(SystemFailure)
      case MarkInfrastructure => Some(Infrastructure)
      case _ => LastSevere(ms[..|ms| - 1])
  }

  lemma InfrastructureInContext(e: AnyError, c: string)
    ensures IsInfrastructureError(e.Context(c)) <==> IsInfrastructureError(e)
  {
    var o, i := e.Context(c).Chain(), e.Chain();
    assert |o| == |i| + 1 && forall k :: 0 <= k < |i| ==> o[k + 1] == i[k];
    assert o[0] == Node(ContextLayer, c);
    if IsInfrastructureError(e) {
      var n :| n in i && IsInfrastructureKind(n.kind);
      var k :| 0 <= k < |i| && i[k] == n;
      assert o[k + 1] == n;
    }
  }

  lemma InfrastructureMarked(e: AnyError)
    ensures IsInfrastructureError(e.AsInfrastructure())
  {
    assert e.AsInfrastructure().Chain()[0] == Node(IoError, e.Display());
  }

  /**
   Whatever marks and context layers are put on an error, in whatever order, the default classifier
   follows the last severe mark; without one it classifies as it would have before - in particular
   `as_application` never undoes a severe mark and context never hides or fakes one.
   */
  lemma {:induction false} LastSevereMarkDecides(e: AnyError, ms: seq<Mark>)
    ensures Default.Classify(AllMarked(e, ms)) ==
            match LastSevere(ms) case Some(severity) => severity case None => Default.Classify(e)
  {
    if ms != [] {
      var inner := AllMarked(e, ms[..|ms| - 1]);
      LastSevereMarkDecides(e, ms[..|ms| - 1]);
      match ms[|ms| - 1] {
        case MarkSystemFailure =>
        case MarkInfrastructure => InfrastructureMarked(inner);
        case MarkApplication =>
        case AddContext(c) => InfrastructureInContext(inner, c);
      }
    }
  }

  /** Infrastructure is recognised through any number of context layers, and only then. */
  lemma ContextKeepsInfrastructure(e: AnyError, ms: seq<Mark>)
    requires forall m <- ms :: m.AddContext?
    ensures IsInfrastructureError(AllMarked(e, ms)) <==> IsInfrastructureError(e)
  {
    if ms != [] {
      ContextKeepsInfrastructure(e, ms[..|ms| - 1]);
      InfrastructureInContext(AllMarked(e, ms[..|ms| - 1]), ms[|ms| - 1].c);
    }
  }
}
