/**
 From a service description to a client half and a server half that meet at run time: the code the macro
 generates (zel_macros/src/render/client.rs, zel_macros/src/render/server.rs,
 zel_macros/src/render/codegen.rs), the registration maps (zel_core/src/protocol/builder.rs) and the
 router (zel_core/src/protocol/server.rs).

 Serialization is a parameter; all that is asked of it is that it round-trips.
 */
module ServiceCompiler {
  import opened Wrappers
  import opened ErrorClassification
  import opened ServiceDescription
  import Retry

  type Bytes = seq<bv8>

  datatype Value = Atom(ty: string, number: nat) | Tuple(elems: seq<Value>)

  predicate HasType(v: Value, t: Ty) {
    match (v, t)
    case (Atom(a, _), Plain(b)) => a == b
    case (Tuple(vs), TupleTy(ts)) => |vs| == |ts| && forall i :: 0 <= i < |vs| ==> HasType(vs[i], ts[i])
    case _ => false
  }

  datatype Codec = Codec(toVec: Value -> Bytes, fromSlice: (Ty, Bytes) -> Option<Value>)

  ghost predicate RoundTrips(c: Codec) {
    forall v, t :: HasType(v, t) ==> c.fromSlice(t, c.toVec(v)) == Some(v)
  }

  datatype Body = Subscribe | Rpc(data: Bytes) | StreamBody(data: Bytes) | Notify(data: Bytes)

  datatype Request = Request(service: string, resource: string, body: Body)

  // ---------------------------------------------------------------------------------------------
  // The client half
  // ---------------------------------------------------------------------------------------------

  function EncodeArgs(c: Codec, args: seq<Value>): Bytes {
    if |args| == 0 then [] else if |args| == 1 then c.toVec(args[0]) else c.toVec(Tuple(args))
  }

  function EncodeOptional(c: Codec, args: seq<Value>): Option<Bytes> {
    if |args| == 0 then None else Some(EncodeArgs(c, args))
  }

  function OrDefault(data: Option<Bytes>): Bytes {
    match data case None => [] case Some(bytes) => bytes
  }

  /** What the generated client method of an endpoint sends. */
  function ClientRequest(c: Codec, service: string, e: Endpoint, args: seq<Value>): Request {
    var body := match e.kind
      case Method => Rpc(EncodeArgs(c, args))
      case Subscription => (match EncodeOptional(c, args) case Some(data) => Rpc(data) case None => Subscribe)
      case Notification => Notify(OrDefault(EncodeOptional(c, args)))
      case Stream => StreamBody(OrDefault(EncodeOptional(c, args)));
    Request(service, e.rpcName, body)
  }

  /** Which body each kind of call sends: its arguments in the body of its kind, except that a subscription with
      arguments sends them as an RPC does. */
  lemma RequestBodies(c: Codec, service: string, e: Endpoint, args: seq<Value>)
    ensures var r := ClientRequest(c, service, e, args);
            && r.service == service && r.resource == e.rpcName
            && (r.body.Subscribe? <==> e.kind == Subscription && args == [])
            && (r.body.Rpc? <==> e.kind == Method || (e.kind == Subscription && args != []))
            && (r.body.Notify? <==> e.kind == Notification)
            && (r.body.StreamBody? <==> e.kind == Stream)
            && (args == [] && !r.body.Subscribe? ==> r.body.data == [])
  {
  }

  // ---------------------------------------------------------------------------------------------
  // The server half
  // ---------------------------------------------------------------------------------------------

  /** The part of the body a generated closure takes its parameters from. */
  function BodyData(kind: Kind, body: Body): Result<Bytes, ResourceError> {
    match kind
    case Method => if body.Rpc? then Ok(body.data) else Err(CallbackError("Expected RPC body", Application, None))
    case Subscription => if body.Subscribe? then Ok([]) else Ok(body.data)
    case Notification => if body.Notify? || body.Rpc? then Ok(body.data) else Ok([])
    case Stream => if body.StreamBody? then Ok(body.data) else Ok([])
  }

  /** What becomes of a request of another kind: an RPC method turns it away; a subscription reads the bytes of
      any body, a notification those of an RPC, and otherwise there are none. */
  lemma ForeignBodies(kind: Kind, body: Body)
    ensures BodyData(kind, body).Err? <==> kind == Method && !body.Rpc?
    ensures BodyData(kind, body).Ok? ==>
              var data := BodyData(kind, body).value;
              if || body.Subscribe?
                 || (kind == Notification && body.StreamBody?)
                 || (kind == Stream && !body.StreamBody?)
              then data == []
              else data == body.data
  {
  }

  function TypesOf(params: seq<Param>): (ts: seq<Ty>)
    ensures |ts| == |params| && forall i :: 0 <= i < |ts| ==> ts[i] == params[i].ty
  {
    seq(|params|, i requires 0 <= i < |params| => params[i].ty)
  }

  function DecodeArgs(c: Codec, params: seq<Param>, data: Bytes): Result<seq<Value>, ResourceError> {
    if |params| == 0 then Ok([])
    else if |params| == 1 then
      match c.fromSlice(params[0].ty, data)
      case Some(v) => Ok([v])
      case None => Err(CallbackError("Failed to deserialize parameter", Application, None))
    else
      match c.fromSlice(TupleTy(TypesOf(params)), data)
      case Some(Tuple(vs)) => Ok(vs)
      case _ => Err(CallbackError("Failed to deserialize parameters", Application, None))
  }

  /** A registered closure: which service implementation it calls and which method of it. */
  datatype Callback = Callback(owner: nat, endpoint: Endpoint)

  /** The call of a user's method that a request leads to. */
  datatype Invocation = Invocation(owner: nat, endpoint: Endpoint, args: seq<Value>)

  function Invoke(c: Codec, cb: Callback, body: Body): Result<Invocation, ResourceError> {
    match BodyData(cb.endpoint.kind, body)
    case Err(e) => Err(e)
    case Ok(data) =>
      match DecodeArgs(c, cb.endpoint.params, data)
      case Err(e) => Err(e)
      case Ok(args) => Ok(Invocation(cb.owner, cb.endpoint, args))
  }

  // ---------------------------------------------------------------------------------------------
  // Registration and routing
  // ---------------------------------------------------------------------------------------------

  type Resources = map<string, Callback>

  type Services = map<string, Resources>

  /** All endpoints, in the order in which they are registered. */
  function Endpoints(d: Description): seq<Endpoint> {
    d.methods + d.subscriptions + d.notifications + d.streams
  }

  function Registered(owner: nat, es: seq<Endpoint>): Resources {
    if es == [] then map[]
    else Registered(owner, es[..|es| - 1])[es[|es| - 1].rpcName := Callback(owner, es[|es| - 1])]
  }

  lemma NothingRegistered(owner: nat)
    ensures Registered(owner, []) == map[]
  {
  }

  /** The server built from these services, in order. */
  function Built(ds: seq<Description>): Services {
    if ds == [] then map[]
    else
      var last := |ds| - 1;
      Built(ds[..last])[ds[last].name := Registered(last, Endpoints(ds[last]))]
  }

  function Route(services: Services, service: string, resource: string): Result<Callback, ResourceError> {
    if service !in services then Err(ServiceNotFound(service))
    else if resource !in services[service] then Err(ResourceNotFound(service, resource))
    else Ok(services[service][resource])
  }

  function Handle(c: Codec, services: Services, r: Request): Result<Invocation, ResourceError> {
    match Route(services, r.service, r.resource)
    case Err(e) => Err(e)
    case Ok(cb) => Invoke(c, cb, r.body)
  }

  /** `ServiceBuilder`. */
  class ServiceBuilder {
    const name: string
    var resources: Resources

    constructor (name: string)
      ensures this.name == name && resources == map[]
    {
      this.name, resources := name, map[];
    }

    /** One registration call of the generated body. */
    method Resource(rpcName: string, callback: Callback)
      modifies this
      ensures resources == old(resources)[rpcName := callback]
    {
      resources := resources[rpcName := callback];
    }

    method ResourcesOf(owner: nat, es: seq<Endpoint>, ghost before: seq<Endpoint>)
      requires resources == Registered(owner, before)
      modifies this
      ensures resources == Registered(owner, before + es)
    {
      assert before + es[..0] == before;
      for i := 0 to |es|
        invariant resources == Registered(owner, before + es[..i])
      {
        Resource(es[i].rpcName, Callback(owner, es[i]));
        assert (before + es[..i + 1])[..|before| + i] == before + es[..i];
      }
      assert es[..|es|] == es;
    }
  }

  /** `RpcServerBuilder`, as far as services are concerned. */
  class RpcServerBuilder {
    var services: Services
    var count: nat

    constructor ()
      ensures services == Built([]) && count == 0
    {
      services, count := map[], 0;
    }

    /** The generated `register_service` of one more service. */
    method RegisterService(d: Description, ghost ds: seq<Description>)
      requires services == Built(ds) && count == |ds|
      modifies this
      ensures services == Built(ds + [d]) && count == |ds| + 1
    {
      hide Registered;
      NothingRegistered(count);
      var b := new ServiceBuilder(d.name);
      b.ResourcesOf(count, d.methods, []);
      b.ResourcesOf(count, d.subscriptions, [] + d.methods);
      b.ResourcesOf(count, d.notifications, [] + d.methods + d.subscriptions);
      b.ResourcesOf(count, d.streams, [] + d.methods + d.subscriptions + d.notifications);
      assert [] + d.methods + d.subscriptions + d.notifications + d.streams == Endpoints(d);
      assert (ds + [d])[..|ds|] == ds;
      services := services[d.name := b.resources];
      count := count + 1;
    }
  }

  // ---------------------------------------------------------------------------------------------
  // The two halves meet
  // ---------------------------------------------------------------------------------------------

  /** The j-th endpoint is the last registered under its name. */
  predicate LastOfName(es: seq<Endpoint>, j: nat) {
    j < |es| && forall k :: j < k < |es| ==> es[k].rpcName != es[j].rpcName
  }

  predicate LastService(ds: seq<Description>, i: nat) {
    i < |ds| && forall k :: i < k < |ds| ==> ds[k].name != ds[i].name
  }

  lemma {:induction false} RegisteredLookup(owner: nat, es: seq<Endpoint>, name: string)
    ensures name in Registered(owner, es) <==> exists j :: 0 <= j < |es| && es[j].rpcName == name
    ensures name in Registered(owner, es) ==>
              exists j: nat :: LastOfName(es, j) && es[j].rpcName == name
                               && Registered(owner, es)[name] == Callback(owner, es[j])
  {
    if es != [] {
      var last, es0 := |es| - 1, es[..|es| - 1];
      RegisteredLookup(owner, es0, name);
      if es[last].rpcName == name {
        assert LastOfName(es, last);
      } else if name in Registered(owner, es0) {
        var j: nat :| LastOfName(es0, j) && es0[j].rpcName == name
                      && Registered(owner, es0)[name] == Callback(owner, es0[j]);
        assert LastOfName(es, j);
      }
    }
  }

  /** The last service of this name is the i-th. */
  predicate NamedService(ds: seq<Description>, name: string, i: nat) {
    i < |ds| && LastService(ds, i) && ds[i].name == name
  }

  lemma NamedServiceStep(ds: seq<Description>, name: string, i: nat)
    requires ds != []
    ensures var last := |ds| - 1;
            NamedService(ds, name, i) <==>
            if ds[last].name == name then i == last else NamedService(ds[..last], name, i)
  {
    assert LastService(ds, i) ==> i == |ds| - 1 || ds[|ds| - 1].name != ds[i].name;
  }

  lemma {:induction false} BuiltLookup(ds: seq<Description>, name: string)
    ensures name in Built(ds) <==> exists i :: 0 <= i < |ds| && ds[i].name == name
    ensures name in Built(ds) ==>
              exists i: nat :: NamedService(ds, name, i) && Built(ds)[name] == Registered(i, Endpoints(ds[i]))
  {
    hide Registered, Endpoints, LastService;
    if ds != [] {
      var last, ds0 := |ds| - 1, ds[..|ds| - 1];
      BuiltLookup(ds0, name);
      if ds[last].name == name {
        NamedServiceStep(ds, name, last);
      } else if name in Built(ds0) {
        var i: nat :| NamedService(ds0, name, i) && Built(ds0)[name] == Registered(i, Endpoints(ds0[i]));
        NamedServiceStep(ds, name, i);
        assert i < |ds0| && ds0[i] == ds[i];
      }
    }
  }

  /** The k-th endpoint of the i-th service is the one these names lead to. */
  predicate NamedLast(ds: seq<Description>, service: string, resource: string, i: nat, k: nat) {
    && NamedService(ds, service, i)
    && LastOfName(Endpoints(ds[i]), k) && Endpoints(ds[i])[k].rpcName == resource
  }

  ghost predicate HasEndpoint(d: Description, resource: string) {
    exists k :: 0 <= k < |Endpoints(d)| && Endpoints(d)[k].rpcName == resource
  }

  /** Names lead to the last endpoint registered under them, in the last service of that name, or to the
      error that says which name is unknown there. */
  lemma RouterFindsTheLast(ds: seq<Description>, service: string, resource: string)
    ensures match Route(Built(ds), service, resource)
            case Ok(cb) =>
              exists i: nat, k: nat ::
                NamedLast(ds, service, resource, i, k) && cb == Callback(i, Endpoints(ds[i])[k])
            case Err(e) =>
              || (e == ServiceNotFound(service) && forall i :: 0 <= i < |ds| ==> ds[i].name != service)
              || (e == ResourceNotFound(service, resource)
                  && exists i: nat :: NamedService(ds, service, i) && !HasEndpoint(ds[i], resource))
  {
    hide Registered, Endpoints, Built, LastService;
    BuiltLookup(ds, service);
    if service in Built(ds) {
      var i: nat :| NamedService(ds, service, i) && Built(ds)[service] == Registered(i, Endpoints(ds[i]));
      RegisteredLookup(i, Endpoints(ds[i]), resource);
      if resource in Built(ds)[service] {
        var k: nat :| LastOfName(Endpoints(ds[i]), k) && Endpoints(ds[i])[k].rpcName == resource
                      && Registered(i, Endpoints(ds[i]))[resource] == Callback(i, Endpoints(ds[i])[k]);
        assert NamedLast(ds, service, resource, i, k);
      }
    }
  }

  /** No two methods of a trait have the same identifier. */
  predicate DistinctIdents(es: seq<Endpoint>) {
    forall j, k :: 0 <= j < k < |es| ==> es[j].ident != es[k].ident
  }

  /**
   Requests for the j-th endpoint of the i-th service reach it exactly when no later service has the
   same name and no endpoint registered later in the service - of whatever kind - has the same name.
   */
  lemma ReachesExactlyTheLast(ds: seq<Description>, i: nat, j: nat)
    requires i < |ds| && j < |Endpoints(ds[i])| && DistinctIdents(Endpoints(ds[i]))
    ensures var e := Endpoints(ds[i])[j];
            Route(Built(ds), ds[i].name, e.rpcName) == Ok(Callback(i, e)) <==>
            LastService(ds, i) && LastOfName(Endpoints(ds[i]), j)
  {
    var es, e := Endpoints(ds[i]), Endpoints(ds[i])[j];
    RouterFindsTheLast(ds, ds[i].name, e.rpcName);
    match Route(Built(ds), ds[i].name, e.rpcName) {
      case Ok(cb) =>
        var s: nat, k: nat :| NamedLast(ds, ds[i].name, e.rpcName, s, k) && cb == Callback(s, Endpoints(ds[s])[k]);
        assert LastService(ds, i) ==> s == i;
      case Err(_) =>
    }
  }

  predicate WellTyped(e: Endpoint, args: seq<Value>) {
    |args| == |e.params| && forall i :: 0 <= i < |args| ==> HasType(args[i], e.params[i].ty)
  }

  /** The bytes of a call, unpacked by the closure of its own endpoint, give back the arguments: for all
      four kinds and any number of parameters. */
  lemma ArgumentsSurvive(c: Codec, service: string, owner: nat, e: Endpoint, args: seq<Value>)
    requires RoundTrips(c) && WellTyped(e, args)
    ensures Invoke(c, Callback(owner, e), ClientRequest(c, service, e, args).body) == Ok(Invocation(owner, e, args))
  {
    if |args| == 0 {
      assert args == [];
    } else if |args| == 1 {
      assert HasType(args[0], e.params[0].ty);
      assert args == [args[0]];
    } else {
      assert HasType(Tuple(args), TupleTy(TypesOf(e.params)));
    }
  }

  /** All services have different names, and all endpoints of a service, of whatever kind. */
  predicate DistinctNames(ds: seq<Description>) {
    && (forall i, k :: 0 <= i < k < |ds| ==> ds[i].name != ds[k].name)
    && (forall i :: 0 <= i < |ds| ==> DistinctEndpoints(Endpoints(ds[i])))
  }

  predicate DistinctEndpoints(es: seq<Endpoint>) {
    forall j, k :: 0 <= j < k < |es| ==> es[j].rpcName != es[k].rpcName
  }

  /**
   Compilation preserves meaning: with distinct names, calling the generated client method of any
   endpoint of any service with any well-typed arguments invokes that endpoint's method, of that
   service's implementation, with exactly those arguments.
   */
  lemma CompilationPreservesMeaning(c: Codec, ds: seq<Description>, i: nat, j: nat, args: seq<Value>)
    requires RoundTrips(c) && DistinctNames(ds)
    requires i < |ds| && j < |Endpoints(ds[i])| && WellTyped(Endpoints(ds[i])[j], args)
    ensures var e := Endpoints(ds[i])[j];
            Handle(c, Built(ds), ClientRequest(c, ds[i].name, e, args)) == Ok(Invocation(i, e, args))
  {
    var e := Endpoints(ds[i])[j];
    RouterFindsTheLast(ds, ds[i].name, e.rpcName);
    assert NamedLast(ds, ds[i].name, e.rpcName, i, j);
    ArgumentsSurvive(c, ds[i].name, i, Endpoints(ds[i])[j], args);
  }

  // ---------------------------------------------------------------------------------------------
  // From the traits themselves
  // ---------------------------------------------------------------------------------------------

  datatype Trait = Trait(name: string, items: seq<Item>)

  function Described(ts: seq<Trait>): (ds: seq<Description>)
    ensures |ds| == |ts| && forall i :: 0 <= i < |ts| ==> ds[i] == DescriptionOf(ts[i].name, ts[i].items)
  {
    seq(|ts|, i requires 0 <= i < |ts| => DescriptionOf(ts[i].name, ts[i].items))
  }

  /** No two functions of a trait are given the same name. */
  ghost predicate DistinctItems(items: seq<Item>) {
    && AllDescribed(items)
    && forall i, k :: 0 <= i < k < |items| ==>
         Describe(items[i]).value.rpcName != Describe(items[k]).value.rpcName
  }

  function ListOf(d: Description, kind: Kind): seq<Endpoint> {
    match kind
    case Method => d.methods
    case Subscription => d.subscriptions
    case Notification => d.notifications
    case Stream => d.streams
  }

  /** Where the endpoints of a kind begin among all. */
  function Offset(d: Description, kind: Kind): nat {
    match kind
    case Method => 0
    case Subscription => |d.methods|
    case Notification => |d.methods| + |d.subscriptions|
    case Stream => |d.methods| + |d.subscriptions| + |d.notifications|
  }

  lemma EndpointOfKind(d: Description, kind: Kind, place: nat)
    requires place < |ListOf(d, kind)|
    ensures Offset(d, kind) + place < |Endpoints(d)|
    ensures Endpoints(d)[Offset(d, kind) + place] == ListOf(d, kind)[place]
  {
  }

  lemma KindOfEndpoint(d: Description, j: nat) returns (kind: Kind, place: nat)
    requires j < |Endpoints(d)|
    ensures place < |ListOf(d, kind)| && j == Offset(d, kind) + place
  {
    kind := if j < |d.methods| then Method
      else if j < Offset(d, Notification) then Subscription
      else if j < Offset(d, Stream) then Notification
      else Kind.Stream;
    place := j - Offset(d, kind);
  }

  /** Every endpoint comes from an item, and different endpoints from different items. */
  lemma ItemOfEndpoint(name: string, items: seq<Item>, j: nat) returns (i: nat, kind: Kind, place: nat)
    requires AllDescribed(items) && j < |Endpoints(DescriptionOf(name, items))|
    ensures i < |items| && Describe(items[i]).value == Endpoints(DescriptionOf(name, items))[j]
    ensures Describe(items[i]).value.kind == kind && place == |OfKind(items[..i], kind)|
    ensures j == Offset(DescriptionOf(name, items), kind) + place
  {
    var d := DescriptionOf(name, items);
    hide Describe, OfKind, Endpoints;
    kind, place := KindOfEndpoint(d, j);
    EndpointOfKind(d, kind, place);
    i := ItemAt(items, kind, place);
  }

  lemma DistinctItemsGiveDistinctEndpoints(name: string, items: seq<Item>)
    requires DistinctItems(items)
    ensures DistinctEndpoints(Endpoints(DescriptionOf(name, items)))
  {
    var es := Endpoints(DescriptionOf(name, items));
    hide Describe, OfKind, Endpoints, DescriptionOf, Offset;
    forall j, k | 0 <= j < k < |es|
      ensures es[j].rpcName != es[k].rpcName
    {
      var i, kind, place := ItemOfEndpoint(name, items, j);
      var i', kind', place' := ItemOfEndpoint(name, items, k);
      assert i != i';
    }
  }

  /** The endpoint of an item. */
  lemma EndpointOfItem(name: string, items: seq<Item>, i: nat) returns (j: nat)
    requires AllDescribed(items) && i < |items|
    ensures j < |Endpoints(DescriptionOf(name, items))|
    ensures Endpoints(DescriptionOf(name, items))[j] == Describe(items[i]).value
  {
    EachItemInOneList(items, i);
    var e := Describe(items[i]).value;
    var d, place := DescriptionOf(name, items), |OfKind(items[..i], e.kind)|;
    assert ListOf(d, e.kind) == OfKind(items, e.kind);
    hide Describe, OfKind, Endpoints;
    EndpointOfKind(d, e.kind, place);
    j := Offset(d, e.kind) + place;
  }

  /**
   From the source text to the call: given traits the macro accepts, with different names and different
   names of functions within each, the client method generated from the n-th function of the i-th trait,
   called with any well-typed arguments, invokes that very function of that service with these arguments.
   */
  lemma ClientMethodCallsItsFunction(c: Codec, ts: seq<Trait>, i: nat, n: nat, args: seq<Value>)
    requires RoundTrips(c)
    requires forall k, l :: 0 <= k < l < |ts| ==> ts[k].name != ts[l].name
    requires forall k :: 0 <= k < |ts| ==> DistinctItems(ts[k].items)
    requires i < |ts| && DistinctItems(ts[i].items) && n < |ts[i].items|
    requires WellTyped(Describe(ts[i].items[n]).value, args)
    ensures var e, f := Describe(ts[i].items[n]).value, ts[i].items[n].f;
            && Handle(c, Built(Described(ts)), ClientRequest(c, ts[i].name, e, args)) == Ok(Invocation(i, e, args))
            && e.ident == f.ident && ExtractParams(f.inputs) == Ok(e.params)
  {
    var ds := Described(ts);
    assert DescriptionOf(ts[i].name, ts[i].items).name == ts[i].name;
    DescribedFunction(ts[i].items[n]);
    var j := EndpointOfItem(ts[i].name, ts[i].items, n);
    forall k | 0 <= k < |ds|
      ensures DistinctEndpoints(Endpoints(ds[k]))
    {
      DistinctItemsGiveDistinctEndpoints(ts[k].name, ts[k].items);
    }
    hide Describe, OfKind, Endpoints, Handle, ClientRequest, ExtractParams, Built, WellTyped, RoundTrips;
    CompilationPreservesMeaning(c, ds, i, j, args);
  }

  // ---------------------------------------------------------------------------------------------
  // Methods, there and back
  // ---------------------------------------------------------------------------------------------

  /** What the users' methods return. */
  type Implementation = Invocation -> Result<Value, ResourceError>

  function Serve(c: Codec, services: Services, impl: Implementation, r: Request): Result<Bytes, ResourceError> {
    match Handle(c, services, r)
    case Err(e) => Err(e)
    case Ok(call) =>
      match impl(call)
      case Err(e) => Err(e)
      case Ok(v) => Ok(c.toVec(v))
  }

  /** The generated client method of an RPC endpoint, without retries. */
  function CallMethod(
    c: Codec, services: Services, impl: Implementation, service: string, e: Endpoint, args: seq<Value>)
    : Result<Value, Retry.ClientError>
  {
    match Serve(c, services, impl, ClientRequest(c, service, e, args))
    case Err(e) => Err(Retry.Resource(e))
    case Ok(data) =>
      match c.fromSlice(e.output, data)
      case Some(v) => Ok(v)
      case None => Err(Retry.Serialization("invalid result"))
  }

  /** A remote method call returns what the method returns, value or error. */
  lemma RemoteCallIsLocalCall(c: Codec, ds: seq<Description>, impl: Implementation, i: nat, j: nat, args: seq<Value>)
    requires RoundTrips(c) && DistinctNames(ds)
    requires i < |ds| && j < |Endpoints(ds[i])| && WellTyped(Endpoints(ds[i])[j], args)
    requires var r := impl(Invocation(i, Endpoints(ds[i])[j], args));
             r.Ok? ==> HasType(r.value, Endpoints(ds[i])[j].output)
    ensures var e := Endpoints(ds[i])[j];
            CallMethod(c, Built(ds), impl, ds[i].name, e, args) ==
            match impl(Invocation(i, e, args)) case Ok(v) => Ok(v) case Err(x) => Err(Retry.Resource(x))
  {
    CompilationPreservesMeaning(c, ds, i, j, args);
  }
}
