/** Reading a service trait into a description of its endpoints (zel_macros/src/service.rs). */
module ServiceDescription {
  import opened Wrappers

  datatype Ty = Plain(name: string) | TupleTy(elems: seq<Ty>)

  datatype Kind = Method | Subscription | Notification | Stream

  /** `#[path(name = "...")]`; no name: the attribute's arguments lack it. */
  datatype Attribute = Attribute(path: string, name: Option<string>)

  /** No name: a pattern that is not a plain identifier. */
  datatype Input = Receiver | Typed(name: Option<string>, ty: Ty)

  datatype Function = Function(ident: string, attrs: seq<Attribute>, isAsync: bool, inputs: seq<Input>, output: Ty)

  datatype Item = ConstItem | TypeItem | FunctionItem(f: Function) | OtherItem

  datatype Param = Param(name: string, ty: Ty)

  datatype Endpoint = Endpoint(kind: Kind, rpcName: string, ident: string, params: seq<Param>, output: Ty)

  datatype Description = Description(
    name: string,
    methods: seq<Endpoint>, subscriptions: seq<Endpoint>, notifications: seq<Endpoint>, streams: seq<Endpoint>)

  datatype SynError =
    | ConstNotSupported
    | TypeNotSupported
    | OnlyMethods
    | MissingName
    | MissingAttribute
    | NotAsync
    | ComplexPattern
    | EmptyTrait

  // ---------------------------------------------------------------------------------------------
  // One trait item
  // ---------------------------------------------------------------------------------------------

  /** The name given by the first attribute of this path, if there is one. */
  function ParseAttribute(attrs: seq<Attribute>, path: string): Result<Option<string>, SynError> {
    if attrs == [] then Ok(None)
    else if attrs[0].path == path then
      if attrs[0].name.None? then Err(MissingName) else Ok(Some(attrs[0].name.value))
    else ParseAttribute(attrs[1..], path)
  }

  function ExtractParams(inputs: seq<Input>): Result<seq<Param>, SynError> {
    if inputs == [] then Ok([])
    else match inputs[0]
      case Receiver => ExtractParams(inputs[1..])
      case Typed(None, _) => Err(ComplexPattern)
      case Typed(Some(name), ty) =>
        (match ExtractParams(inputs[1..])
         case Err(e) => Err(e)
         case Ok(rest) => Ok([Param(name, ty)] + rest))
  }

  function FromTraitFn(kind: Kind, rpcName: string, f: Function): Result<Endpoint, SynError> {
    if !f.isAsync then Err(NotAsync)
    else match ExtractParams(f.inputs)
      case Err(e) => Err(e)
      case Ok(params) => Ok(Endpoint(kind, rpcName, f.ident, params, f.output))
  }

  /** The kinds in the order in which their attributes are looked for. */
  const KINDS: seq<Kind> := [Method, Subscription, Notification, Stream]

  function PathOf(kind: Kind): string {
    match kind
    case Method => "method"
    case Subscription => "subscription"
    case Notification => "notification"
    case Stream => "stream"
  }

  function DescribeAs(f: Function, kinds: seq<Kind>): Result<Endpoint, SynError> {
    if kinds == [] then Err(MissingAttribute)
    else match ParseAttribute(f.attrs, PathOf(kinds[0]))
      case Err(e) => Err(e)
      case Ok(Some(name)) => FromTraitFn(kinds[0], name, f)
      case Ok(None) => DescribeAs(f, kinds[1..])
  }

  function Describe(item: Item): Result<Endpoint, SynError> {
    if item.FunctionItem? then DescribeAs(item.f, KINDS) else Err(OnlyMethods)
  }

  // ---------------------------------------------------------------------------------------------
  // The whole trait
  // ---------------------------------------------------------------------------------------------

  /** The endpoints of one kind, in trait order. */
  function OfKind(items: seq<Item>, kind: Kind): seq<Endpoint> {
    if items == [] then []
    else
      var r := Describe(items[|items| - 1]);
      OfKind(items[..|items| - 1], kind) + if r.Ok? && r.value.kind == kind then [r.value] else []
  }

  ghost predicate IsFirst(items: seq<Item>, i: nat, bad: Item -> bool) {
    i < |items| && bad(items[i]) && forall j :: 0 <= j < i ==> !bad(items[j])
  }

  predicate Banned(item: Item) {
    item.ConstItem? || item.TypeItem?
  }

  predicate Undescribed(item: Item) {
    Describe(item).Err?
  }

  /** The description of an accepted trait. */
  function DescriptionOf(name: string, items: seq<Item>): Description {
    Description(name, OfKind(items, Method), OfKind(items, Subscription),
                OfKind(items, Notification), OfKind(items, Stream))
  }

  /**
   `ServiceDescription::from_item`.  Constants and types are looked for in the whole trait first; then
   the first item that cannot be described is the error.  Otherwise the four lists hold the endpoints
   of their kind, in trait order.
   */
  method FromItem(name: string, items: seq<Item>) returns (r: Result<Description, SynError>, ghost at: nat)
    ensures r.Ok? <==> items != [] && forall i :: 0 <= i < |items| ==> !Banned(items[i]) && !Undescribed(items[i])
    ensures r.Ok? ==> r.value == DescriptionOf(name, items)
    ensures r.Err? ==>
              || (IsFirst(items, at, Banned)
                  && r.error == if items[at].ConstItem? then ConstNotSupported else TypeNotSupported)
              || ((forall i :: 0 <= i < |items| ==> !Banned(items[i]))
                  && IsFirst(items, at, Undescribed) && r.error == Describe(items[at]).error)
              || (items == [] && r.error == EmptyTrait)
  {
    hide Describe;
    at := 0;
    for i := 0 to |items|
      invariant forall j :: 0 <= j < i ==> !Banned(items[j])
    {
      match items[i] {
        case ConstItem => return Err(ConstNotSupported), i;
        case TypeItem => return Err(TypeNotSupported), i;
        case _ =>
      }
    }
    var methods, subscriptions, notifications, streams := [], [], [], [];
    for i := 0 to |items|
      invariant forall j :: 0 <= j < i ==> !Undescribed(items[j])
      invariant methods == OfKind(items[..i], Method) && subscriptions == OfKind(items[..i], Subscription)
      invariant notifications == OfKind(items[..i], Notification) && streams == OfKind(items[..i], Stream)
      invariant |methods| + |subscriptions| + |notifications| + |streams| == i
    {
      assert items[..i + 1][..i] == items[..i];
      var described := Describe(items[i]);
      if described.Err? {
        return Err(described.error), i;
      }
      var e := described.value;
      match e.kind {
        case Method => methods := methods + [e];
        case Subscription => subscriptions := subscriptions + [e];
        case Notification => notifications := notifications + [e];
        case Stream => streams := streams + [e];
      }
    }
    assert items[..|items|] == items;
    if methods == [] && subscriptions == [] && notifications == [] && streams == [] {
      return Err(EmptyTrait), 0;
    }
    r := Ok(Description(name, methods, subscriptions, notifications, streams));
  }

  ghost predicate AllDescribed(items: seq<Item>) {
    forall i :: 0 <= i < |items| ==> !Undescribed(items[i])
  }

  /** Each item of an accepted trait stands in the list of its kind, after the earlier items of that kind
      and before the later ones, and the lists hold nothing else. */
  lemma {:induction false} EachItemInOneList(items: seq<Item>, i: nat)
    requires AllDescribed(items) && i < |items|
    ensures var e := Describe(items[i]).value;
            var place := |OfKind(items[..i], e.kind)|;
            place < |OfKind(items, e.kind)| && OfKind(items, e.kind)[place] == e
    ensures |OfKind(items, Method)| + |OfKind(items, Subscription)| + |OfKind(items, Notification)| +
            |OfKind(items, Stream)| == |items|
  {
    hide Describe;
    var before := items[..|items| - 1];
    var last := Describe(items[|items| - 1]).value;
    assert items == before + [items[|items| - 1]];
    if i < |before| {
      EachItemInOneList(before, i);
      assert before[..i] == items[..i];
    } else {
      ListSizes(before);
    }
  }

  lemma {:induction false} ListSizes(items: seq<Item>)
    requires AllDescribed(items)
    ensures |OfKind(items, Method)| + |OfKind(items, Subscription)| + |OfKind(items, Notification)| +
            |OfKind(items, Stream)| == |items|
  {
    hide Describe;
    if items != [] {
      ListSizes(items[..|items| - 1]);
    }
  }

  /** The other way round: what stands at a place of a list comes from an item. */
  lemma {:induction false} ItemAt(items: seq<Item>, kind: Kind, place: nat) returns (i: nat)
    requires AllDescribed(items) && place < |OfKind(items, kind)|
    ensures i < |items| && Describe(items[i]).value == OfKind(items, kind)[place]
    ensures Describe(items[i]).value.kind == kind && |OfKind(items[..i], kind)| == place
  {
    hide Describe;
    var before := items[..|items| - 1];
    if place < |OfKind(before, kind)| {
      i := ItemAt(before, kind, place);
      assert before[..i] == items[..i];
    } else {
      i := |items| - 1;
    }
  }

  /** The description keeps what a client and a server need of the item's function. */
  lemma DescribedFunction(item: Item)
    requires Describe(item).Ok?
    ensures item.FunctionItem? && Describe(item).value.ident == item.f.ident
    ensures Describe(item).value.output == item.f.output
    ensures ExtractParams(item.f.inputs) == Ok(Describe(item).value.params)
  {
    DescribedAs(item.f, KINDS);
  }

  lemma {:induction false} DescribedAs(f: Function, kinds: seq<Kind>)
    requires DescribeAs(f, kinds).Ok?
    ensures var e := DescribeAs(f, kinds).value;
            e.ident == f.ident && e.output == f.output && ExtractParams(f.inputs) == Ok(e.params)
  {
    if ParseAttribute(f.attrs, PathOf(kinds[0])) == Ok(None) {
      DescribedAs(f, kinds[1..]);
    }
  }

  // ---------------------------------------------------------------------------------------------
  // What the attributes and inputs of a function make of it
  // ---------------------------------------------------------------------------------------------

  predicate HasAttribute(f: Function, path: string) {
    exists a <- f.attrs :: a.path == path
  }

  /** The i-th attribute is the first of this path. */
  predicate FirstAttribute(f: Function, path: string, i: nat) {
    i < |f.attrs| && f.attrs[i].path == path && forall j :: 0 <= j < i ==> f.attrs[j].path != path
  }

  /** The i-th attribute decides that the function is of this kind: the first of its path, and no attribute is
      of a path that takes precedence. */
  predicate Decides(f: Function, i: nat, kind: Kind) {
    match kind
    case Method => FirstAttribute(f, "method", i)
    case Subscription => FirstAttribute(f, "subscription", i) && !HasAttribute(f, "method")
    case Notification =>
      FirstAttribute(f, "notification", i) && !HasAttribute(f, "method") && !HasAttribute(f, "subscription")
    case Stream =>
      && FirstAttribute(f, "stream", i)
      && !HasAttribute(f, "method") && !HasAttribute(f, "subscription") && !HasAttribute(f, "notification")
  }

  predicate Undecided(f: Function) {
    && !HasAttribute(f, "method") && !HasAttribute(f, "subscription")
    && !HasAttribute(f, "notification") && !HasAttribute(f, "stream")
  }

  predicate HasPattern(f: Function) {
    exists x <- f.inputs :: x.Typed? && x.name.None?
  }

  function TypedInputs(inputs: seq<Input>): nat {
    if inputs == [] then 0
    else TypedInputs(inputs[..|inputs| - 1]) + if inputs[|inputs| - 1].Typed? then 1 else 0
  }

  /** Every typed input is a parameter, of its name and type, at its place among them, and there are no others. */
  ghost predicate ParamsOf(inputs: seq<Input>, params: seq<Param>) {
    && |params| == TypedInputs(inputs)
    && forall i :: 0 <= i < |inputs| && inputs[i].Typed? ==>
         && TypedInputs(inputs[..i]) < |params|
         && inputs[i].name == Some(params[TypedInputs(inputs[..i])].name)
         && inputs[i].ty == params[TypedInputs(inputs[..i])].ty
  }

  lemma {:induction false} TypedInputsFrom(x: Input, inputs: seq<Input>)
    ensures TypedInputs([x] + inputs) == TypedInputs(inputs) + if x.Typed? then 1 else 0
  {
    if inputs == [] {
      assert ([x] + inputs)[..0] == [] && [x] + inputs == [x];
    } else {
      assert ([x] + inputs)[..|inputs|] == [x] + inputs[..|inputs| - 1];
      TypedInputsFrom(x, inputs[..|inputs| - 1]);
    }
  }

  lemma ParamsFrom(x: Input, inputs: seq<Input>, params: seq<Param>)
    requires ParamsOf(inputs, params) && (x.Typed? ==> x.name.Some?)
    ensures ParamsOf([x] + inputs, if x.Typed? then [Param(x.name.value, x.ty)] + params else params)
  {
    var all := [x] + inputs;
    TypedInputsFrom(x, inputs);
    forall i | 0 < i < |all|
      ensures TypedInputs(all[..i]) == TypedInputs(inputs[..i - 1]) + if x.Typed? then 1 else 0
      ensures all[i] == inputs[i - 1]
    {
      assert all[..i] == [x] + inputs[..i - 1];
      TypedInputsFrom(x, inputs[..i - 1]);
    }
  }

  /** Parameters are extracted unless some input is a pattern, and then they are the typed inputs in order. */
  lemma {:induction false} ExtractsParams(inputs: seq<Input>)
    ensures match ExtractParams(inputs)
            case Ok(params) => ParamsOf(inputs, params) && forall x <- inputs :: x.Typed? ==> x.name.Some?
            case Err(e) => e == ComplexPattern && exists x <- inputs :: x.Typed? && x.name.None?
  {
    if inputs != [] {
      hide ParamsOf;
      var x, rest := inputs[0], inputs[1..];
      ExtractsParams(rest);
      assert inputs == [x] + rest;
      if ExtractParams(inputs).Ok? {
        ParamsFrom(x, rest, ExtractParams(rest).value);
      }
    } else {
      NoParams();
    }
  }

  lemma NoParams()
    ensures ParamsOf([], [])
  {
  }

  lemma {:induction false} ParsesNone(attrs: seq<Attribute>, path: string)
    ensures ParseAttribute(attrs, path) == Ok(None) <==> forall a <- attrs :: a.path != path
  {
    if attrs != [] {
      ParsesNone(attrs[1..], path);
      assert attrs == [attrs[0]] + attrs[1..];
    }
  }

  lemma {:induction false} ParsesFirst(attrs: seq<Attribute>, path: string, i: nat)
    requires i < |attrs| && attrs[i].path == path && forall j :: 0 <= j < i ==> attrs[j].path != path
    ensures ParseAttribute(attrs, path) == if attrs[i].name.None? then Err(MissingName) else Ok(attrs[i].name)
  {
    if i > 0 {
      ParsesFirst(attrs[1..], path, i - 1);
    }
  }

  /** Which kind and which name a function is given, with which parameters - or which error, in this order. */
  lemma AttributeDecides(f: Function, i: nat, kind: Kind)
    requires Decides(f, i, kind)
    ensures match Describe(FunctionItem(f))
            case Ok(e) =>
              && e.kind == kind && Some(e.rpcName) == f.attrs[i].name && f.isAsync && !HasPattern(f)
              && e.ident == f.ident && e.output == f.output && ParamsOf(f.inputs, e.params)
            case Err(error) =>
              if f.attrs[i].name.None? then error == MissingName
              else if !f.isAsync then error == NotAsync
              else error == ComplexPattern && HasPattern(f)
  {
    ParsesNone(f.attrs, "method");
    ParsesNone(f.attrs, "subscription");
    ParsesNone(f.attrs, "notification");
    ParsesFirst(f.attrs, f.attrs[i].path, i);
    ExtractsParams(f.inputs);
    hide ParseAttribute, ExtractParams, ParamsOf;
    TriesInOrder(f);
  }

  function As(kind: Kind, parsed: Result<Option<string>, SynError>, f: Function): Result<Endpoint, SynError>
    requires parsed != Ok(None)
  {
    if parsed.Err? then Err(parsed.error) else FromTraitFn(kind, parsed.value.value, f)
  }

  lemma TriesInOrder(f: Function)
    ensures var m, s := ParseAttribute(f.attrs, "method"), ParseAttribute(f.attrs, "subscription");
            var n, t := ParseAttribute(f.attrs, "notification"), ParseAttribute(f.attrs, "stream");
            DescribeAs(f, KINDS) ==
            if m != Ok(None) then As(Method, m, f)
            else if s != Ok(None) then As(Subscription, s, f)
            else if n != Ok(None) then As(Notification, n, f)
            else if t != Ok(None) then As(Stream, t, f)
            else Err(MissingAttribute)
  {
    hide FromTraitFn, ParseAttribute;
    var k1, k2, k3 := [Subscription, Notification, Stream], [Notification, Stream], [Stream];
    assert KINDS[1..] == k1 && k1[1..] == k2 && k2[1..] == k3 && k3[1..] == [];
    OneKindTried(f, KINDS);
    OneKindTried(f, k1);
    OneKindTried(f, k2);
    OneKindTried(f, k3);
  }

  lemma OneKindTried(f: Function, kinds: seq<Kind>)
    requires kinds != []
    ensures var parsed := ParseAttribute(f.attrs, PathOf(kinds[0]));
            DescribeAs(f, kinds) == if parsed != Ok(None) then As(kinds[0], parsed, f) else DescribeAs(f, kinds[1..])
  {
  }

  lemma Undescribable(item: Item)
    ensures Describe(item) == Err(OnlyMethods) <==> !item.FunctionItem?
    ensures item.FunctionItem? ==> (Describe(item) == Err(MissingAttribute) <==> Undecided(item.f))
  {
    if item.FunctionItem? {
      var f := item.f;
      ParsesNone(f.attrs, "method");
      ParsesNone(f.attrs, "subscription");
      ParsesNone(f.attrs, "notification");
      ParsesNone(f.attrs, "stream");
      if !Undecided(f) {
        var i, kind := DecidingAttribute(f);
        AttributeDecides(f, i, kind);
      }
      hide ParseAttribute, ExtractParams;
      TriesInOrder(f);
    }
  }

  lemma FirstOf(f: Function, path: string) returns (i: nat)
    requires HasAttribute(f, path)
    ensures FirstAttribute(f, path, i)
  {
    i := 0;
    while f.attrs[i].path != path
      invariant i < |f.attrs| && forall j :: 0 <= j < i ==> f.attrs[j].path != path
      decreases |f.attrs| - i
    {
      i := i + 1;
    }
  }

  /** A function with any of the four attributes has one that decides. */
  lemma DecidingAttribute(f: Function) returns (i: nat, kind: Kind)
    requires !Undecided(f)
    ensures Decides(f, i, kind)
  {
    if HasAttribute(f, "method") {
      kind := Method;
      i := FirstOf(f, "method");
    } else if HasAttribute(f, "subscription") {
      kind := Subscription;
      i := FirstOf(f, "subscription");
    } else if HasAttribute(f, "notification") {
      kind := Notification;
      i := FirstOf(f, "notification");
    } else {
      kind := Stream;
      i := FirstOf(f, "stream");
    }
  }
}
