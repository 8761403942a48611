/**
 Concurrent `subscribe` calls on one connection (zel_core/src/protocol/client.rs,
 zel_core/src/protocol/handlers/subscription.rs) - and, in the same way, concurrent calls of `notify` and
 `open_stream`, which share a queue of their own, that of `accept_bi`
 (zel_core/src/protocol/handlers/notification.rs, zel_core/src/protocol/handlers/stream.rs).

 For each request the server opens a stream of its own, writes Established on it and then responds.  The
 client takes whichever stream `accept_uni` hands out next, which need not be the one opened for its
 request, and compares the names in Established with its own.  A stream is named after the call whose
 request it was opened for, and streams reach the client in any order.
 */
module Subscription {
  import opened Wrappers
  import opened Sums

  type CallId = nat

  /** Where a call of `subscribe` stands. */
  datatype Call =
    | Requested    // request sent, response awaited
    | Accepting    // Ok response read, `accept_uni` pending
    | Holding      // has accepted a stream, Established awaited
    | Subscribed   // returned Ok
    | Failed       // returned an error

  /** Where `handle_subscription` stands for one request. */
  datatype Handler =
    | Entered
    | Opened
    | Announced    // Established written
    | Responded    // response written, publisher task spawned
    | Refused      // error response
    | Silent       // the response could not be written: no task

  /** What the server writes first on the stream it opens, and what the client then looks for: the names the
      request carried - or, for `open_stream`, two bytes that are always the same. */
  datatype Opening = Established(names: Key) | RawOk

  /** One call and its request: what the client knows, what the server does about it, and what the
      server wrote first on the stream it opened for it (None: nothing the client could see). */
  datatype Record = Record(key: Opening, call: Call, handler: Handler, established: Option<Opening>)

  /** `holds` says which stream each call has accepted. */
  datatype Net = Net(calls: map<CallId, Record>, holds: map<CallId, CallId>)

  const INIT := Net(map[], map[])

  datatype Event =
    | Request(c: CallId, key: Opening)
    | OpenStream(c: CallId)
    | Announce(c: CallId)
    | Respond(c: CallId)
    | Refuse(c: CallId)
    | LoseResponse(c: CallId)
    | ReadResponse(c: CallId)
    | Accept(c: CallId, stream: CallId)
    | ReadEstablished(c: CallId)
    | Abort(c: CallId)            // any transport error the call runs into

  predicate Is(s: Net, c: CallId, p: Call) {
    c in s.calls && s.calls[c].call == p
  }

  /** The events that concern one call and its handler alone. */
  function Local(r: Record, e: Event): Option<Record> {
    match e
    case OpenStream(_) => if r.handler.Entered? then Some(r.(handler := Opened)) else None
    case Announce(_) => if r.handler.Opened? then Some(r.(handler := Announced, established := Some(r.key))) else None
    case Respond(_) => if r.handler.Announced? then Some(r.(handler := Responded)) else None
    case Refuse(_) => if r.handler.Entered? || r.handler.Opened? then Some(r.(handler := Refused)) else None
    case LoseResponse(_) => if r.handler.Announced? then Some(r.(handler := Silent)) else None
    case ReadResponse(_) =>
      if r.call.Requested? && r.handler.Responded? then Some(r.(call := Accepting))
      else if r.call.Requested? && r.handler.Refused? then Some(r.(call := Failed))
      else None
    case Abort(_) =>
      if r.call.Requested? || r.call.Accepting? || r.call.Holding? then Some(r.(call := Failed)) else None
    case _ => None
  }

  function Put(s: Net, c: CallId, r: Record): Net {
    s.(calls := s.calls[c := r])
  }

  function Step(s: Net, e: Event): Option<Net> {
    match e
    case Request(c, key) =>
      if c in s.calls then None
      else Some(s.(calls := s.calls[c := Record(key, Requested, Entered, None)]))
    case Accept(c, x) =>
      if Is(s, c, Accepting) && Available(s, x) then
        Some(Net(s.calls[c := s.calls[c].(call := Holding)], s.holds[c := x]))
      else None
    case ReadEstablished(c) =>
      if Is(s, c, Holding) && c in s.holds && s.holds[c] in s.calls then
        var matches := s.calls[s.holds[c]].established == Some(s.calls[c].key);
        Some(s.(calls := s.calls[c := s.calls[c].(call := if matches then Subscribed else Failed)]))
      else None
    case _ =>
      if e.c !in s.calls then None
      else
        var r := Local(s.calls[e.c], e);
        if r.None? then None else Some(s.(calls := s.calls[e.c := r.value]))
  }

  /** A stream `accept_uni` can hand out: something was written on it and nobody has accepted it. */
  predicate Available(s: Net, x: CallId) {
    x in s.calls && s.calls[x].established.Some? && x !in s.holds.Values
  }

  function Run(s: Net, es: seq<Event>): Option<Net> {
    if es == [] then Some(s)
    else
      var p := Run(s, es[..|es| - 1]);
      if p.None? then None else Step(p.value, es[|es| - 1])
  }

  // ---------------------------------------------------------------------------------------------
  // Who holds which stream
  // ---------------------------------------------------------------------------------------------

  predicate Injective(m: map<CallId, CallId>) {
    forall c <- m, d <- m :: c != d ==> m[c] != m[d]
  }

  predicate RecordOk(r: Record) {
    && (r.established.Some? <==> r.handler.Announced? || r.handler.Responded? || r.handler.Silent?)
    && (r.established.Some? ==> r.established.value == r.key)
    && (r.call.Accepting? || r.call.Holding? || r.call.Subscribed? ==> r.handler.Responded?)
  }

  /** Call c holds a stream if and only if its phase says so, and that stream was announced. */
  predicate HoldingOk(s: Net, c: CallId)
    requires c in s.calls
  {
    && (s.calls[c].call.Requested? || s.calls[c].call.Accepting? ==> c !in s.holds)
    && (s.calls[c].call.Holding? || s.calls[c].call.Subscribed? ==> c in s.holds)
    && (c in s.holds ==> s.holds[c] in s.calls && s.calls[s.holds[c]].established.Some?)
    && (c in s.holds ==> s.calls[c].handler.Responded?)
    && (s.calls[c].call.Subscribed? ==> s.calls[s.holds[c]].key == s.calls[c].key)
  }

  ghost predicate Inv(s: Net) {
    && Injective(s.holds)
    && (forall c <- s.holds :: c in s.calls)
    && (forall c <- s.calls :: RecordOk(s.calls[c]))
    && (forall c {:trigger HoldingOk(s, c)} :: c in s.calls ==> HoldingOk(s, c))
  }

  lemma HoldsAfterAccept(m: map<CallId, CallId>, c: CallId, x: CallId)
    requires Injective(m) && c !in m && x !in m.Values
    ensures Injective(m[c := x])
  {
    assert forall d <- m :: m[d] in m.Values;
  }

  lemma LocalKeeps(r: Record, e: Event)
    requires RecordOk(r) && Local(r, e).Some?
    ensures var t := Local(r, e).value;
            && RecordOk(t) && t.key == r.key
            && (r.established.Some? ==> t.established.Some?)
            && (r.handler.Responded? ==> t.handler.Responded?)
            && (t.call.Requested? || t.call.Accepting? ==> r.call.Requested? || r.call.Accepting?)
            && (t.call.Holding? || t.call.Subscribed? ==> t.call == r.call)
  {
  }

  /** Advancing one call without accepting a stream. */
  lemma AdvanceKeepsInv(s: Net, c: CallId, r: Record)
    requires Inv(s) && c in s.calls && RecordOk(r)
    requires r.key == s.calls[c].key && (s.calls[c].established.Some? ==> r.established.Some?)
    requires HoldingOk(s.(calls := s.calls[c := r]), c)
    ensures Inv(s.(calls := s.calls[c := r]))
  {
    var t := s.(calls := s.calls[c := r]);
    forall d <- t.calls
      ensures HoldingOk(t, d)
    {
      assert d != c ==> HoldingOk(s, d);
    }
  }

  lemma AcceptKeepsInv(s: Net, c: CallId, x: CallId)
    requires Inv(s) && Step(s, Accept(c, x)).Some?
    ensures Inv(Step(s, Accept(c, x)).value)
  {
    var t := Step(s, Accept(c, x)).value;
    assert HoldingOk(s, c);
    HoldsAfterAccept(s.holds, c, x);
    forall d <- t.calls
      ensures HoldingOk(t, d)
    {
      assert HoldingOk(s, d);
    }
  }

  lemma RequestKeepsInv(s: Net, c: CallId, key: Opening)
    requires Inv(s) && Step(s, Request(c, key)).Some?
    ensures Inv(Step(s, Request(c, key)).value)
  {
    var t := Step(s, Request(c, key)).value;
    forall d <- t.calls
      ensures HoldingOk(t, d)
    {
      assert d != c ==> HoldingOk(s, d);
    }
  }

  lemma StepKeepsInv(s: Net, e: Event)
    requires Inv(s) && Step(s, e).Some?
    ensures Inv(Step(s, e).value)
  {
    match e {
      case Accept(c, x) => AcceptKeepsInv(s, c, x);
      case Request(c, key) => RequestKeepsInv(s, c, key);
      case ReadEstablished(c) =>
        assert HoldingOk(s, c) && RecordOk(s.calls[c]) && RecordOk(s.calls[s.holds[c]]);
        AdvanceKeepsInv(s, c, Step(s, e).value.calls[c]);
      case _ =>
        assert HoldingOk(s, e.c) && RecordOk(s.calls[e.c]);
        LocalKeeps(s.calls[e.c], e);
        AdvanceKeepsInv(s, e.c, Local(s.calls[e.c], e).value);
    }
  }

  lemma {:induction false} RunKeepsInv(s: Net, es: seq<Event>)
    requires Inv(s) && Run(s, es).Some?
    ensures Inv(Run(s, es).value)
  {
    hide Step, Inv;
    if es != [] {
      RunKeepsInv(s, es[..|es| - 1]);
      StepKeepsInv(Run(s, es[..|es| - 1]).value, es[|es| - 1]);
    }
  }

  /** In every run a successful subscriber holds a stream opened for the same service and resource as
      its own request, and no two calls hold the same stream. */
  lemma OkMeansMatchingStream(es: seq<Event>, c: CallId, d: CallId)
    requires Run(INIT, es).Some? && Is(Run(INIT, es).value, c, Subscribed)
    ensures var s := Run(INIT, es).value;
            && c in s.holds && s.holds[c] in s.calls && s.calls[s.holds[c]].key == s.calls[c].key
            && (d in s.holds && d != c ==> s.holds[d] != s.holds[c])
  {
    RunKeepsInv(INIT, es);
    assert HoldingOk(Run(INIT, es).value, c);
  }

  lemma WithoutOne(m: map<CallId, CallId>, c: CallId)
    requires Injective(m) && c in m
    ensures var rest := m - {c};
            && rest.Keys == m.Keys - {c} && Injective(rest)
            && m[c] !in rest.Values && m.Values == rest.Values + {m[c]}
  {
    var rest := m - {c};
    assert forall d <- rest :: d in m && rest[d] == m[d] && d != c;
    assert forall v <- m.Values :: v in rest.Values + {m[c]} by {
      assert forall d <- m :: d == c || (d in rest && rest[d] == m[d]);
    }
  }

  lemma InjectiveSize(m: map<CallId, CallId>)
    requires Injective(m)
    ensures |m.Values| == |m.Keys|
    decreases |m|
  {
    if m.Keys != {} {
      var c :| c in m.Keys;
      WithoutOne(m, c);
      hide Injective;
      InjectiveSize(m - {c});
    } else {
      assert m == map[];
    }
  }

  lemma SubsetSize(a: set<CallId>, b: set<CallId>)
    requires a <= b
    ensures |a| <= |b| && (|a| == |b| ==> a == b)
  {
    assert b == a + (b - a);
  }

  lemma HeldStreams(s: Net)
    requires Inv(s)
    ensures s.holds.Keys <= s.calls.Keys && s.holds.Values <= s.calls.Keys
    ensures forall x <- s.holds.Values :: s.calls[x].established.Some?
  {
    forall x <- s.holds.Values
      ensures x in s.calls && s.calls[x].established.Some?
    {
      var c :| c in s.holds && s.holds[c] == x;
      assert HoldingOk(s, c);
    }
  }

  /**
   When every call of a run has returned Ok, the calls and the server's publisher tasks are matched one
   to one: `holds` permutes the calls, and each task publishes for the names its subscriber asked for.
   */
  lemma AllOkIsBijection(es: seq<Event>)
    requires Run(INIT, es).Some? && AllSubscribed(Run(INIT, es).value)
    ensures var s := Run(INIT, es).value;
            && Injective(s.holds)
            && s.holds.Keys == s.calls.Keys == s.holds.Values
            && (forall c <- s.calls :: Matched(s, c))
  {
    RunKeepsInv(INIT, es);
    AllSubscribedMatches(Run(INIT, es).value);
    HoldsOnto(Run(INIT, es).value);
  }

  lemma HoldsOnto(s: Net)
    requires Inv(s) && AllSubscribed(s)
    ensures Injective(s.holds) && s.holds.Keys == s.calls.Keys == s.holds.Values
  {
    AllSubscribedMatches(s);
    HeldStreams(s);
    assert Injective(s.holds);
    hide Inv, Injective, AllSubscribed;
    Onto(s.holds);
  }

  lemma AllSubscribedMatches(s: Net)
    requires Inv(s) && AllSubscribed(s)
    ensures s.holds.Keys == s.calls.Keys
    ensures forall c <- s.calls :: Matched(s, c)
  {
    forall c <- s.calls
      ensures c in s.holds && Matched(s, c)
    {
      assert HoldingOk(s, c) && RecordOk(s.calls[c]) && Is(s, c, Subscribed);
    }
  }

  /** Call c holds a stream opened for the names it asked for, and its own request got a task. */
  predicate Matched(s: Net, c: CallId) {
    && c in s.calls && s.calls[c].handler.Responded?
    && c in s.holds && s.holds[c] in s.calls && s.calls[s.holds[c]].key == s.calls[c].key
  }

  lemma Onto(m: map<CallId, CallId>)
    requires Injective(m) && m.Values <= m.Keys
    ensures m.Values == m.Keys
  {
    InjectiveSize(m);
    SubsetSize(m.Values, m.Keys);
  }

  ghost predicate AllSubscribed(s: Net) {
    forall c <- s.calls :: Is(s, c, Subscribed)
  }

  // ---------------------------------------------------------------------------------------------
  // Every run comes to an end
  // ---------------------------------------------------------------------------------------------

  /** How far a call is from the end, in events: three for the handler and three for the client. */
  function Rank(r: Record): nat {
    (match r.handler case Entered => 3 case Opened => 2 case Announced => 1 case _ => 0) +
    (match r.call case Requested => 3 case Accepting => 2 case Holding => 1 case _ => 0)
  }

  ghost function TotalRank(s: Net): nat {
    Sum(s.calls, Rank)
  }

  function Requests(es: seq<Event>): nat {
    if es == [] then 0 else Requests(es[..|es| - 1]) + if es[|es| - 1].Request? then 1 else 0
  }

  /** Every event but a new call brings its call nearer the end, and touches no other. */
  lemma EventsAdvance(s: Net, e: Event)
    requires Step(s, e).Some? && !e.Request?
    ensures var t := Step(s, e).value;
            && e.c in s.calls && e.c in t.calls && t.calls == s.calls[e.c := t.calls[e.c]]
            && t.calls[e.c].key == s.calls[e.c].key
            && Rank(t.calls[e.c]) < Rank(s.calls[e.c])
  {
  }

  /** However calls interleave, succeed and fail: a run takes no more events than the ranks at its start and
      seven for each new call allow. */
  lemma {:induction false} RunsEnd(s: Net, es: seq<Event>)
    requires Run(s, es).Some?
    ensures |es| + TotalRank(Run(s, es).value) <= TotalRank(s) + 7 * Requests(es)
    ensures Run(s, es).value.calls.Keys >= s.calls.Keys
    ensures |Run(s, es).value.calls| == |s.calls| + Requests(es)
  {
    hide Step, TotalRank;
    if es != [] {
      RunsEnd(s, es[..|es| - 1]);
      EventCosts(Run(s, es[..|es| - 1]).value, es[|es| - 1]);
    }
  }

  lemma EventCosts(s: Net, e: Event)
    requires Step(s, e).Some?
    ensures var t := Step(s, e).value;
            && TotalRank(t) + 1 <= TotalRank(s) + (if e.Request? then 7 else 0)
            && t.calls.Keys == s.calls.Keys + {e.c}
            && |t.calls| == |s.calls| + if e.Request? then 1 else 0
  {
    hide Sum;
    var t := Step(s, e).value;
    if e.Request? {
      assert Rank(t.calls[e.c]) == 6 && t.calls == s.calls[e.c := t.calls[e.c]];
    } else {
      EventsAdvance(s, e);
    }
    assert e.Request? <==> e.c !in s.calls;
    hide Step, Rank;
    SumUpdated(s.calls, Rank, e.c, t.calls[e.c]);
    SizeUpdated(s.calls, e.c, t.calls[e.c]);
  }

  lemma NothingToDo()
    ensures TotalRank(INIT) == 0
  {
  }

  /** From the start: at most seven events for each call made. */
  lemma SevenEventsPerCall(es: seq<Event>)
    requires Run(INIT, es).Some?
    ensures |es| <= 7 * |Run(INIT, es).value.calls|
  {
    hide Run;
    RunsEnd(INIT, es);
    NothingToDo();
  }

  ghost predicate NoRequest(es: seq<Event>) {
    forall e <- es :: !e.Request?
  }

  lemma {:induction false} NoRequestsIn(es: seq<Event>)
    requires NoRequest(es)
    ensures Requests(es) == 0
  {
    if es != [] {
      NoRequestsIn(es[..|es| - 1]);
    }
  }

  /** And n calls that are joined by no other are through within six events each. */
  lemma SixEventsPerCall(s: Net, es: seq<Event>)
    requires Run(s, es).Some? && NoRequest(es)
    ensures |es| <= 6 * |s.calls|
  {
    NoRequestsIn(es);
    RunsEnd(s, es);
    hide Run;
    SumAtMost(s.calls, Rank, 6);
  }

  // ---------------------------------------------------------------------------------------------
  // When no call can fail
  // ---------------------------------------------------------------------------------------------

  /** No new call, and nothing goes wrong on the way. */
  predicate Quiet(e: Event) {
    !e.Request? && !e.Refuse? && !e.LoseResponse? && !e.Abort?
  }

  ghost predicate AllQuiet(es: seq<Event>) {
    forall e <- es :: Quiet(e)
  }

  ghost predicate NoneFailed(s: Net) {
    forall c <- s.calls :: !s.calls[c].call.Failed? && !s.calls[c].handler.Refused? && !s.calls[c].handler.Silent?
  }

  predicate KeyMatches(s: Net, c: CallId) {
    c in s.holds && c in s.calls && s.holds[c] in s.calls && s.calls[s.holds[c]].key == s.calls[c].key
  }

  /** Every stream accepted so far was opened for the names its holder asks for. */
  ghost predicate HoldersMatch(s: Net) {
    forall c <- s.holds :: KeyMatches(s, c)
  }

  /** All calls that hold no stream yet ask for the same names. */
  ghost predicate OneKeyLeft(s: Net) {
    forall c <- s.calls, d <- s.calls :: c !in s.holds && d !in s.holds ==> s.calls[c].key == s.calls[d].key
  }

  ghost predicate Fits(s: Net) {
    HoldersMatch(s) && OneKeyLeft(s)
  }

  function OfKey(s: Net, key: Opening): set<CallId> {
    set c <- s.calls | s.calls[c].key == key
  }

  function HeldOfKey(s: Net, key: Opening): map<CallId, CallId> {
    map c <- s.holds | c in s.calls && s.calls[c].key == key :: s.holds[c]
  }

  /** While holders match, streams for some names are held only by calls for these names. */
  lemma StreamsStayInTheirKey(s: Net, key: Opening)
    requires Inv(s) && HoldersMatch(s)
    ensures var m := HeldOfKey(s, key);
            && Injective(m) && m.Keys <= OfKey(s, key) && m.Values <= OfKey(s, key)
            && forall x <- OfKey(s, key) :: x in s.holds.Values ==> x in m.Values
  {
    var m := HeldOfKey(s, key);
    forall x <- m.Values
      ensures x in OfKey(s, key)
    {
      var c :| c in m && m[c] == x;
      assert KeyMatches(s, c);
    }
    forall x <- OfKey(s, key) | x in s.holds.Values
      ensures x in m.Values
    {
      var c :| c in s.holds && s.holds[c] == x;
      assert KeyMatches(s, c);
      assert m[c] == x;
    }
  }

  /** A call without a stream leaves a stream for its names, opened or still to be opened. */
  lemma StreamOfKeyLeft(s: Net, d: CallId) returns (x: CallId)
    requires Inv(s) && HoldersMatch(s) && d in s.calls && d !in s.holds
    ensures x in s.calls && s.calls[x].key == s.calls[d].key && x !in s.holds.Values
  {
    var key := s.calls[d].key;
    StreamsStayInTheirKey(s, key);
    hide Inv, HoldersMatch, Injective;
    x := OneLeft(HeldOfKey(s, key), OfKey(s, key), d);
  }

  /** When all calls for some names hold a stream, all streams for these names are held. */
  lemma NoStreamOfKeyLeft(s: Net, x: CallId)
    requires Inv(s) && HoldersMatch(s) && x in s.calls
    requires forall d <- s.calls :: s.calls[d].key == s.calls[x].key ==> d in s.holds
    ensures x in s.holds.Values
  {
    var key := s.calls[x].key;
    var m := HeldOfKey(s, key);
    StreamsStayInTheirKey(s, key);
    hide Inv, HoldersMatch, Injective;
    assert OfKey(s, key) <= m.Keys && x in OfKey(s, key);
    assert forall y <- m.Values :: y in s.holds.Values by {
      assert forall c <- m :: c in s.holds && m[c] == s.holds[c];
    }
    hide OfKey, HeldOfKey;
    Onto(m);
  }

  lemma AcceptFits(s: Net, c: CallId, x: CallId)
    requires Inv(s) && Fits(s) && Step(s, Accept(c, x)).Some?
    ensures s.calls[x].key == s.calls[c].key
  {
    assert HoldingOk(s, c);
    if s.calls[x].key != s.calls[c].key {
      hide Inv;
      NoStreamOfKeyLeft(s, x);
      assert false;
    }
  }

  lemma PutFits(s: Net, c: CallId, r: Record)
    requires NoneFailed(s) && Fits(s)
    requires c in s.calls && r.key == s.calls[c].key
    requires !r.call.Failed? && !r.handler.Refused? && !r.handler.Silent?
    ensures NoneFailed(Put(s, c, r)) && Fits(Put(s, c, r))
  {
    var t := Put(s, c, r);
    forall d <- t.holds
      ensures KeyMatches(t, d)
    {
      assert KeyMatches(s, d);
    }
  }

  lemma HoldFits(s: Net, c: CallId, x: CallId)
    requires Fits(s) && c in s.calls && x in s.calls && s.calls[x].key == s.calls[c].key
    ensures Fits(s.(holds := s.holds[c := x]))
  {
    var t := s.(holds := s.holds[c := x]);
    forall d <- t.holds
      ensures KeyMatches(t, d)
    {
      assert d != c ==> KeyMatches(s, d);
    }
  }

  lemma LocalAdvances(r: Record, e: Event)
    requires Local(r, e).Some? && Quiet(e)
    requires !r.call.Failed? && !r.handler.Refused? && !r.handler.Silent?
    ensures var t := Local(r, e).value;
            t.key == r.key && !t.call.Failed? && !t.handler.Refused? && !t.handler.Silent?
  {
  }

  /** From such a state an error-free event fails no call and leads to such a state. */
  lemma ErrorFreeEventsFit(s: Net, e: Event)
    requires Inv(s) && NoneFailed(s) && Fits(s) && Step(s, e).Some? && Quiet(e)
    ensures NoneFailed(Step(s, e).value) && Fits(Step(s, e).value)
  {
    var t, r := Step(s, e).value, s.calls[e.c];
    assert !r.call.Failed? && !r.handler.Refused? && !r.handler.Silent?;
    if e.Accept? {
      assert RecordOk(r);
      AcceptFits(s, e.c, e.stream);
      PutFits(s, e.c, r.(call := Holding));
      hide NoneFailed, Fits, Inv;
      HoldFits(Put(s, e.c, r.(call := Holding)), e.c, e.stream);
      SameCalls(Put(s, e.c, r.(call := Holding)), t);
    } else if e.ReadEstablished? {
      assert HoldingOk(s, e.c);
      assert RecordOk(r) && RecordOk(s.calls[s.holds[e.c]]);
      assert KeyMatches(s, e.c);
      PutFits(s, e.c, r.(call := Subscribed));
      hide NoneFailed, Fits, Inv;
      assert t == Put(s, e.c, r.(call := Subscribed));
    } else {
      LocalAdvances(r, e);
      PutFits(s, e.c, Local(r, e).value);
      hide NoneFailed, Fits, Inv;
      assert t == Put(s, e.c, Local(r, e).value);
    }
  }

  lemma SameCalls(s: Net, t: Net)
    requires s.calls == t.calls
    ensures NoneFailed(s) <==> NoneFailed(t)
  {
  }

  lemma {:induction false} ErrorFreeRunsFit(s: Net, es: seq<Event>)
    requires Inv(s) && NoneFailed(s) && Fits(s) && AllQuiet(es) && Run(s, es).Some?
    ensures Inv(Run(s, es).value) && NoneFailed(Run(s, es).value) && Fits(Run(s, es).value)
  {
    hide Step, Inv, NoneFailed, Fits, Quiet;
    if es != [] {
      var es0 := es[..|es| - 1];
      assert forall e <- es0 :: e in es;
      ErrorFreeRunsFit(s, es0);
      RunKeepsInv(s, es);
      ErrorFreeEventsFit(Run(s, es0).value, es[|es| - 1]);
    }
  }

  // The other direction: how a call fails from any other state

  lemma Extend(s0: Net, es: seq<Event>, e: Event, s: Net) returns (fs: seq<Event>, t: Net)
    requires Run(s0, es) == Some(s) && Step(s, e).Some?
    ensures fs == es + [e] && Run(s0, fs) == Some(t) && t == Step(s, e).value
  {
    assert (es + [e])[..|es|] == es;
    fs, t := es + [e], Step(s, e).value;
  }

  lemma PutTwice(s: Net, c: CallId, r: Record, q: Record)
    ensures Put(Put(s, c, r), c, q) == Put(s, c, q)
    ensures c in s.calls ==> Put(s, c, s.calls[c]) == s
  {
    assert Put(Put(s, c, r), c, q).calls == Put(s, c, q).calls;
    assert c in s.calls ==> Put(s, c, s.calls[c]).calls == s.calls;
  }

  /** One more event of call c that concerns it alone. */
  lemma ExtendLocal(s0: Net, es: seq<Event>, e: Event, s: Net, r: Record) returns (fs: seq<Event>)
    requires !e.Request? && !e.Accept? && !e.ReadEstablished?
    requires Run(s0, es) == Some(Put(s, e.c, r)) && Local(r, e).Some?
    ensures fs == es + [e] && Run(s0, fs) == Some(Put(s, e.c, Local(r, e).value))
  {
    var t;
    fs, t := Extend(s0, es, e, Put(s, e.c, r));
    PutTwice(s, e.c, r, Local(r, e).value);
  }

  /** A record that nothing has gone wrong for, with its stream still to be accepted. */
  predicate Promising(r: Record) {
    RecordOk(r) && (r.call.Requested? || r.call.Accepting?) && !r.handler.Refused? && !r.handler.Silent?
  }

  /** Such a call can get to the point where its response has been read and a stream can be accepted. */
  lemma {:induction false} ReachAccepting(s0: Net, es: seq<Event>, c: CallId, s: Net, r: Record)
    returns (fs: seq<Event>)
    requires Run(s0, es) == Some(Put(s, c, r)) && Promising(r)
    ensures AllQuiet(es) ==> AllQuiet(fs)
    ensures NoRequest(es) ==> NoRequest(fs)
    ensures Run(s0, fs) == Some(Put(s, c, Record(r.key, Accepting, Responded, Some(r.key))))
    decreases Rank(r)
  {
    hide Run, Step, Put;
    if r.call.Accepting? {
      assert r == Record(r.key, Accepting, Responded, Some(r.key));
      fs := es;
    } else {
      var e := match r.handler
        case Entered => OpenStream(c)
        case Opened => Announce(c)
        case Announced => Respond(c)
        case _ => ReadResponse(c);
      var gs := ExtendLocal(s0, es, e, s, r);
      fs := ReachAccepting(s0, gs, c, s, Local(r, e).value);
    }
  }

  /** From an accepting call and an unheld stream for other names to a failed call. */
  lemma AcceptAndFail(s0: Net, es: seq<Event>, s: Net, c: CallId, x: CallId) returns (fs: seq<Event>)
    requires Run(s0, es) == Some(s) && Inv(s)
    requires Is(s, c, Accepting) && Available(s, x) && s.calls[x].key != s.calls[c].key
    ensures AllQuiet(es) ==> AllQuiet(fs)
    ensures Run(s0, fs).Some? && Is(Run(s0, fs).value, c, Failed)
  {
    hide Run;
    assert RecordOk(s.calls[x]);
    var t;
    fs, t := Extend(s0, es, Accept(c, x), s);
    assert t.calls[x].established == Some(s.calls[x].key) && t.calls[c].key == s.calls[c].key;
    fs, t := Extend(s0, fs, ReadEstablished(c), t);
  }

  lemma MakeAccepting(s0: Net, es: seq<Event>, s: Net, c: CallId) returns (fs: seq<Event>, t: Net)
    requires Run(s0, es) == Some(s) && c in s.calls && Promising(s.calls[c])
    ensures AllQuiet(es) ==> AllQuiet(fs)
    ensures NoRequest(es) ==> NoRequest(fs)
    ensures Run(s0, fs) == Some(t)
    ensures t == Put(s, c, Record(s.calls[c].key, Accepting, Responded, Some(s.calls[c].key)))
  {
    hide Run;
    PutTwice(s, c, s.calls[c], s.calls[c]);
    fs := ReachAccepting(s0, es, c, s, s.calls[c]);
    t := Put(s, c, Record(s.calls[c].key, Accepting, Responded, Some(s.calls[c].key)));
  }

  lemma StreamlessIsPromising(s: Net, c: CallId)
    requires Inv(s) && NoneFailed(s) && c in s.calls && c !in s.holds
    ensures Promising(s.calls[c])
  {
    assert HoldingOk(s, c) && RecordOk(s.calls[c]);
  }

  /** Its stream is announced, or about to be. */
  lemma AnnouncedOrPromising(s: Net, x: CallId)
    requires Inv(s) && NoneFailed(s) && x in s.calls
    ensures s.calls[x].established.Some? || Promising(s.calls[x])
  {
    assert HoldingOk(s, x) && RecordOk(s.calls[x]);
  }

  lemma MismatchedCallFails(s: Net, c: CallId) returns (es: seq<Event>)
    requires Inv(s) && NoneFailed(s) && c in s.holds && !KeyMatches(s, c)
    ensures AllQuiet(es) && Run(s, es).Some? && Is(Run(s, es).value, c, Failed)
  {
    assert HoldingOk(s, c) && RecordOk(s.calls[s.holds[c]]);
    var t;
    es, t := Extend(s, [], ReadEstablished(c), s);
  }

  lemma DifferentCallsFail(s: Net, c: CallId, d: CallId) returns (es: seq<Event>)
    requires Inv(s) && NoneFailed(s) && HoldersMatch(s)
    requires c in s.calls && c !in s.holds && d in s.calls && d !in s.holds && s.calls[c].key != s.calls[d].key
    ensures AllQuiet(es) && Run(s, es).Some? && Is(Run(s, es).value, c, Failed)
  {
    var x := StreamOfKeyLeft(s, d);
    StreamlessIsPromising(s, c);
    AnnouncedOrPromising(s, x);
    es := [];
    var t;
    es, t := MakeAccepting(s, es, s, c);
    if s.calls[x].established.None? {
      es, t := MakeAccepting(s, es, t, x);
    }
    RunKeepsInv(s, es);
    hide Run, Inv;
    es := AcceptAndFail(s, es, t, c, x);
  }

  lemma CallCanFail(s: Net) returns (es: seq<Event>)
    requires Inv(s) && NoneFailed(s) && !Fits(s)
    ensures AllQuiet(es) && Run(s, es).Some? && !NoneFailed(Run(s, es).value)
  {
    hide Run, Inv;
    if !HoldersMatch(s) {
      var c :| c in s.holds && !KeyMatches(s, c);
      es := MismatchedCallFails(s, c);
      assert Is(Run(s, es).value, c, Failed);
    } else {
      var c, d :| c in s.calls && d in s.calls && c !in s.holds && d !in s.holds && s.calls[c].key != s.calls[d].key;
      es := DifferentCallsFail(s, c, d);
      assert Is(Run(s, es).value, c, Failed);
    }
  }

  /** Call c cannot be made to fail by the next events: the stream it holds has its names, its request was
      not refused, and every stream it could come to accept has its names. */
  predicate Safe(s: Net, c: CallId)
    requires c in s.calls
  {
    && (s.calls[c].call.Holding? ==> KeyMatches(s, c))
    && (s.calls[c].call.Requested? ==> !s.calls[c].handler.Refused?)
    && (Promising(s.calls[c]) ==> forall x <- s.calls :: Fitting(s, c, x))
  }

  /** Stream x has the names of call c, or is not to be had. */
  predicate Fitting(s: Net, c: CallId, x: CallId)
    requires c in s.calls && x in s.calls
  {
    x in s.holds.Values || s.calls[x].handler.Refused? || s.calls[x].key == s.calls[c].key
  }

  ghost predicate AllSafe(s: Net) {
    forall c <- s.calls :: Safe(s, c)
  }

  /** No call fails that had not failed before. */
  ghost predicate NoNewFailure(s: Net, t: Net) {
    forall c <- s.calls :: c in t.calls && (t.calls[c].call.Failed? ==> s.calls[c].call.Failed?)
  }

  /** What an error-free event leaves of a stream's prospects and of the calls. */
  lemma QuietEventKeeps(s: Net, e: Event)
    requires Inv(s) && Step(s, e).Some? && Quiet(e)
    ensures var t := Step(s, e).value;
            && t.calls.Keys == s.calls.Keys && s.holds.Values <= t.holds.Values
            && forall d <- s.calls ::
                 && t.calls[d].key == s.calls[d].key
                 && (s.calls[d].handler.Refused? <==> t.calls[d].handler.Refused?)
                 && (Promising(t.calls[d]) ==> Promising(s.calls[d]))
                 && (d != e.c ==> t.calls[d] == s.calls[d])
  {
    assert RecordOk(s.calls[e.c]) && HoldingOk(s, e.c);
    hide Inv;
    if e.Accept? {
      HeldStaysHeld(s.holds, e.c, e.stream);
    }
  }

  lemma SafeEventFailsNone(s: Net, e: Event)
    requires Inv(s) && AllSafe(s) && Step(s, e).Some? && Quiet(e)
    ensures NoNewFailure(s, Step(s, e).value)
  {
    assert Safe(s, e.c) && RecordOk(s.calls[e.c]) && HoldingOk(s, e.c);
    if e.ReadEstablished? {
      assert RecordOk(s.calls[s.holds[e.c]]);
    }
  }

  lemma MatchesAfter(s: Net, e: Event, c: CallId)
    requires Inv(s) && AllSafe(s) && Step(s, e).Some? && Quiet(e) && c in s.calls
    ensures var t := Step(s, e).value;
            && c in t.calls
            && (t.calls[c].call.Holding? ==> KeyMatches(t, c))
            && (t.calls[c].call.Requested? ==> !t.calls[c].handler.Refused?)
  {
    QuietEventKeeps(s, e);
    assert Safe(s, c) && RecordOk(s.calls[c]) && HoldingOk(s, c);
    if e.Accept? {
      assert RecordOk(s.calls[e.stream]);
      assert e.c == c ==> Fitting(s, c, e.stream);
    }
  }

  lemma FitsAfter(s: Net, e: Event, c: CallId, x: CallId)
    requires Inv(s) && AllSafe(s) && Step(s, e).Some? && Quiet(e) && c in s.calls && x in s.calls
    requires c in Step(s, e).value.calls && Promising(Step(s, e).value.calls[c]) && x in Step(s, e).value.calls
    ensures Fitting(Step(s, e).value, c, x)
  {
    QuietEventKeeps(s, e);
    hide Inv, Step, Quiet, Promising;
    assert Safe(s, c) && Fitting(s, c, x);
  }

  lemma SafeStep(s: Net, e: Event)
    requires Inv(s) && AllSafe(s) && Step(s, e).Some? && Quiet(e)
    ensures AllSafe(Step(s, e).value) && NoNewFailure(s, Step(s, e).value)
  {
    var t := Step(s, e).value;
    SafeEventFailsNone(s, e);
    QuietEventKeeps(s, e);
    hide Inv, Step, Quiet, Promising, Fitting, KeyMatches, NoNewFailure;
    forall c <- t.calls
      ensures Safe(t, c)
    {
      MatchesAfter(s, e, c);
      forall x <- t.calls | Promising(t.calls[c])
        ensures Fitting(t, c, x)
      {
        FitsAfter(s, e, c, x);
      }
    }
  }

  lemma {:induction false} SafeRun(s: Net, es: seq<Event>)
    requires Inv(s) && AllSafe(s) && AllQuiet(es) && Run(s, es).Some?
    ensures var t := Run(s, es).value; Inv(t) && AllSafe(t) && NoNewFailure(s, t)
  {
    hide Step, Inv, AllSafe, Quiet;
    if es != [] {
      var es0, e := es[..|es| - 1], es[|es| - 1];
      assert forall x <- es0 :: x in es;
      SafeRun(s, es0);
      StepKeepsInv(Run(s, es0).value, e);
      SafeStep(Run(s, es0).value, e);
    }
  }

  /** A call that is not safe can be made to fail. */
  lemma UnsafeCallFails(s: Net, c: CallId) returns (es: seq<Event>)
    requires Inv(s) && c in s.calls && !Safe(s, c)
    ensures AllQuiet(es) && Run(s, es).Some? && Is(Run(s, es).value, c, Failed) && !s.calls[c].call.Failed?
  {
    assert HoldingOk(s, c) && RecordOk(s.calls[c]);
    var t;
    if s.calls[c].call.Holding? {
      assert RecordOk(s.calls[s.holds[c]]);
      es, t := Extend(s, [], ReadEstablished(c), s);
    } else if s.calls[c].handler.Refused? {
      es, t := Extend(s, [], ReadResponse(c), s);
    } else {
      var x :| x in s.calls && !Fitting(s, c, x);
      es := WrongStreamFails(s, c, x);
    }
  }

  lemma WrongStreamFails(s: Net, c: CallId, x: CallId) returns (es: seq<Event>)
    requires Inv(s) && c in s.calls && Promising(s.calls[c]) && x in s.calls && !Fitting(s, c, x)
    ensures AllQuiet(es) && Run(s, es).Some? && Is(Run(s, es).value, c, Failed)
  {
    assert RecordOk(s.calls[x]);
    var r, t;
    es, r := ReachAnnounced(s, x);
    t := Put(s, x, r);
    es, t := MakeAccepting(s, es, t, c);
    RunKeepsInv(s, es);
    hide Run, Inv;
    es := AcceptAndFail(s, es, t, c, x);
  }

  /**
   Exactly when no call can fail without an error: as long as nothing goes wrong and no new call is made,
   no call fails that has not failed already, in whatever order things happen, if and only if every stream
   held and not yet checked has its holder's names, no refused call is still to learn of it, and every
   stream that may yet be accepted has the names of every call that may accept it.
   */
  lemma NoCallFailsExactly(s: Net)
    requires Inv(s)
    ensures (forall es: seq<Event> :: AllQuiet(es) && Run(s, es).Some? ==> NoNewFailure(s, Run(s, es).value))
            <==> AllSafe(s)
  {
    if AllSafe(s) {
      hide Run, Inv, AllSafe, AllQuiet;
      forall es: seq<Event> | AllQuiet(es) && Run(s, es).Some?
        ensures NoNewFailure(s, Run(s, es).value)
      {
        SafeRun(s, es);
      }
    } else {
      var c :| c in s.calls && !Safe(s, c);
      hide Run, Inv, AllQuiet;
      var es := UnsafeCallFails(s, c);
      assert !NoNewFailure(s, Run(s, es).value);
    }
  }

  /** As long as no call has failed and no handler has given up, the condition is one of counting: every stream
      accepted so far has its holder's names, and all calls that hold none yet ask for the same. */
  lemma NoneFailsExactly(s: Net)
    requires Inv(s) && NoneFailed(s)
    ensures (forall es: seq<Event> :: AllQuiet(es) && Run(s, es).Some? ==> NoneFailed(Run(s, es).value)) <==> Fits(s)
  {
    hide Run, Inv, NoneFailed, Fits, AllQuiet;
    if Fits(s) {
      forall es: seq<Event> | AllQuiet(es) && Run(s, es).Some?
        ensures NoneFailed(Run(s, es).value)
      {
        ErrorFreeRunsFit(s, es);
      }
    } else {
      var es := CallCanFail(s);
    }
  }

  /** No call waits in vain for anything but a response that got lost: whatever has failed before, as long as
      it has not returned some error-free event of its own is possible - in particular there is always a
      stream left for a call that wants one. */
  lemma NoCallStarves(s: Net, c: CallId) returns (e: Event)
    requires Inv(s) && c in s.calls && !Returned(s.calls[c])
    requires !(s.calls[c].call.Requested? && s.calls[c].handler.Silent?)
    ensures Quiet(e) && e.c == c && Step(s, e).Some?
  {
    var r := s.calls[c];
    assert RecordOk(r) && HoldingOk(s, c);
    match r.call {
      case Requested =>
        e := match r.handler
          case Entered => OpenStream(c)
          case Opened => Announce(c)
          case Announced => Respond(c)
          case _ => ReadResponse(c);
      case Accepting =>
        var x := StreamLeft(s, c);
        e := Accept(c, x);
      case Holding =>
        e := ReadEstablished(c);
    }
  }

  /** Nothing is left to happen but a new call or an error. */
  ghost predicate Settled(s: Net) {
    forall e: Event :: Quiet(e) ==> Step(s, e).None?
  }

  /** Then, if none has failed, all calls have returned Ok, and calls, streams and publisher tasks are
      matched one to one. */
  lemma SettledMeansAllOk(s: Net)
    requires Inv(s) && NoneFailed(s) && Settled(s)
    ensures AllSubscribed(s) && Injective(s.holds)
    ensures s.holds.Keys == s.calls.Keys == s.holds.Values
    ensures forall c <- s.calls :: Matched(s, c)
  {
    assert AllSubscribed(s) by {
      hide Step, Inv, NoneFailed, Quiet;
      forall c <- s.calls
        ensures Is(s, c, Subscribed)
      {
        if !Is(s, c, Subscribed) {
          assert !s.calls[c].call.Failed? && !s.calls[c].handler.Silent? by { assert NoneFailed(s); }
          var e := NoCallStarves(s, c);
          assert false;
        }
      }
    }
    AllSubscribedMatches(s);
    HoldsOnto(s);
  }

  ghost predicate OneResource(s: Net) {
    forall c <- s.calls, d <- s.calls :: s.calls[c].key == s.calls[d].key
  }

  /** Among calls for one resource the check of Established never fails, whichever stream came and whatever
      else goes wrong. */
  lemma OneResourceNeverMismatches(es: seq<Event>, c: CallId)
    requires Run(INIT, es).Some? && OneResource(Run(INIT, es).value)
    requires Step(Run(INIT, es).value, ReadEstablished(c)).Some?
    ensures Is(Step(Run(INIT, es).value, ReadEstablished(c)).value, c, Subscribed)
  {
    RunKeepsInv(INIT, es);
    var s := Run(INIT, es).value;
    assert HoldingOk(s, c);
    assert RecordOk(s.calls[s.holds[c]]);
  }

  /** Nothing fails, and every call is for this one resource. */
  predicate CleanEvent(e: Event, key: Opening) {
    !e.Refuse? && !e.LoseResponse? && !e.Abort? && (e.Request? ==> e.key == key)
  }

  ghost predicate CleanState(s: Net, key: Opening) {
    Inv(s) && NoneFailed(s) && HoldersMatch(s) && forall c <- s.calls :: s.calls[c].key == key
  }

  lemma CleanRequest(s: Net, c: CallId, key: Opening)
    requires CleanState(s, key) && Step(s, Request(c, key)).Some?
    ensures CleanState(Step(s, Request(c, key)).value, key)
  {
    StepKeepsInv(s, Request(c, key));
    hide Inv;
    var t := Step(s, Request(c, key)).value;
    forall d <- t.holds
      ensures KeyMatches(t, d)
    {
      assert KeyMatches(s, d);
    }
  }

  lemma CleanStep(s: Net, e: Event, key: Opening)
    requires CleanState(s, key) && CleanEvent(e, key) && Step(s, e).Some?
    ensures CleanState(Step(s, e).value, key)
  {
    if e.Request? {
      CleanRequest(s, e.c, key);
    } else {
      StepKeepsInv(s, e);
      ErrorFreeEventsFit(s, e);
      EventsAdvance(s, e);
    }
  }

  lemma {:induction false} CleanRun(es: seq<Event>, key: Opening)
    requires Run(INIT, es).Some? && forall e <- es :: CleanEvent(e, key)
    ensures CleanState(Run(INIT, es).value, key)
  {
    hide Step, CleanEvent;
    if es != [] {
      var es0 := es[..|es| - 1];
      assert forall e <- es0 :: e in es;
      CleanRun(es0, key);
      CleanStep(Run(INIT, es0).value, es[|es| - 1], key);
    }
  }

  /** Calls for one resource, however many and however they interleave, all return Ok if nothing fails. */
  lemma OneResourceAllSucceed(es: seq<Event>, key: Opening)
    requires Run(INIT, es).Some? && forall e <- es :: CleanEvent(e, key)
    requires Settled(Run(INIT, es).value)
    ensures var s := Run(INIT, es).value;
            && AllSubscribed(s) && Injective(s.holds)
            && s.holds.Keys == s.calls.Keys == s.holds.Values
            && (forall c <- s.calls :: Matched(s, c))
  {
    CleanRun(es, key);
    hide Step, Run, Inv, NoneFailed;
    SettledMeansAllOk(Run(INIT, es).value);
  }

  lemma StreamLeft(s: Net, c: CallId) returns (x: CallId)
    requires Inv(s) && Is(s, c, Accepting)
    ensures Available(s, x)
  {
    var announced := set y <- s.calls | s.calls[y].established.Some?;
    HoldersAnnounced(s, c, announced);
    x := OneLeft(s.holds, announced, c);
  }

  lemma OneLeft(m: map<CallId, CallId>, all: set<CallId>, c: CallId) returns (x: CallId)
    requires Injective(m) && c !in m && m.Keys + {c} <= all
    ensures x in all && x !in m.Values
  {
    InjectiveSize(m);
    x := MoreThan(m.Keys, m.Values, all, c);
  }

  lemma MoreThan(keys: set<CallId>, values: set<CallId>, all: set<CallId>, c: CallId) returns (x: CallId)
    requires |values| == |keys| && c !in keys && keys + {c} <= all
    ensures x in all && x !in values
  {
    SubsetSize(keys + {c}, all);
    if all - values == {} {
      SubsetSize(all, values);
    }
    x :| x in all - values;
  }

  lemma HoldersAnnounced(s: Net, c: CallId, announced: set<CallId>)
    requires Inv(s) && Is(s, c, Accepting)
    requires announced == set y <- s.calls | s.calls[y].established.Some?
    ensures c !in s.holds && s.holds.Keys + {c} <= announced
  {
    assert HoldingOk(s, c);
    forall d <- s.holds.Keys + {c}
      ensures d in announced
    {
      assert HoldingOk(s, d) && RecordOk(s.calls[d]);
    }
  }

  // ---------------------------------------------------------------------------------------------
  // Calls that do not overlap
  // ---------------------------------------------------------------------------------------------

  predicate Returned(r: Record) {
    r.call.Subscribed? || r.call.Failed?
  }

  ghost predicate AllReturned(s: Net) {
    forall c <- s.calls :: Returned(s.calls[c])
  }

  /** Call d has no stream that another call could still accept: it is held, or will never be opened. */
  predicate LeavesNothing(s: Net, d: CallId)
    requires d in s.calls
  {
    d in s.holds.Values || s.calls[d].handler.Refused?
  }

  ghost predicate NoStreamLeft(s: Net) {
    forall d <- s.calls :: LeavesNothing(s, d)
  }

  /** No stream but its own is left for call c. */
  ghost predicate OthersLeaveNothing(s: Net, c: CallId) {
    forall d <- s.calls :: d != c ==> LeavesNothing(s, d)
  }

  predicate OwnStream(s: Net, c: CallId) {
    c in s.holds ==> s.holds[c] == c
  }

  lemma HeldStaysHeld(m: map<CallId, CallId>, c: CallId, x: CallId)
    requires c !in m
    ensures m.Values <= m[c := x].Values
  {
    assert forall d <- m :: d in m[c := x] && m[c := x][d] == m[d];
  }

  lemma OnlyItsOwnIsLeft(s: Net, e: Event, c: CallId)
    requires Inv(s) && c in s.calls && OthersLeaveNothing(s, c) && Step(s, e).Some? && !e.Request?
    ensures c in Step(s, e).value.calls && OthersLeaveNothing(Step(s, e).value, c)
    ensures Step(s, e).value.holds == if e.Accept? then s.holds[e.c := c] else s.holds
  {
    var t := Step(s, e).value;
    if e.Accept? {
      assert RecordOk(s.calls[e.stream]) && HoldingOk(s, e.c);
      hide Inv;
      HeldStaysHeld(s.holds, e.c, c);
    }
    hide Inv;
    forall d <- t.calls | d != c
      ensures LeavesNothing(t, d)
    {
      assert LeavesNothing(s, d);
    }
  }

  lemma {:induction false} OnlyItsOwnRun(s: Net, es: seq<Event>, c: CallId)
    requires Inv(s) && c in s.calls && OthersLeaveNothing(s, c) && OwnStream(s, c)
    requires Run(s, es).Some? && NoRequest(es)
    ensures var t := Run(s, es).value; Inv(t) && c in t.calls && OthersLeaveNothing(t, c) && OwnStream(t, c)
  {
    hide Step, Inv, OthersLeaveNothing;
    if es != [] {
      var es0 := es[..|es| - 1];
      assert forall e <- es0 :: e in es;
      OnlyItsOwnRun(s, es0, c);
      StepKeepsInv(Run(s, es0).value, es[|es| - 1]);
      OnlyItsOwnIsLeft(Run(s, es0).value, es[|es| - 1], c);
    }
  }

  /** All calls but c are over, and have left nothing. */
  ghost predicate Alone(s: Net, c: CallId) {
    c in s.calls && OthersLeaveNothing(s, c) && forall d <- s.calls :: d != c ==> Returned(s.calls[d])
  }

  lemma AloneStep(s: Net, e: Event, c: CallId)
    requires Inv(s) && Alone(s, c) && Step(s, e).Some? && !e.Request?
    ensures Alone(Step(s, e).value, c)
    ensures Step(s, e).value.holds == if e.Accept? then s.holds[c := c] else s.holds
  {
    OnlyItsOwnIsLeft(s, e, c);
    hide Inv, OthersLeaveNothing;
    assert e.Accept? ==> e.c == c;
  }

  lemma RequestAlone(s: Net, c: CallId, key: Opening)
    requires Inv(s) && AllReturned(s) && Step(s, Request(c, key)).Some?
    ensures var t := Step(s, Request(c, key)).value;
            && (OthersLeaveNothing(t, c) <==> NoStreamLeft(s))
            && (NoStreamLeft(s) ==> Alone(t, c))
  {
    var t := Step(s, Request(c, key)).value;
    assert forall d <- s.calls :: LeavesNothing(s, d) <==> LeavesNothing(t, d);
  }

  /** The handler of call d can still announce its stream, unless it has refused. */
  lemma ReachAnnounced(s: Net, d: CallId) returns (es: seq<Event>, r: Record)
    requires d in s.calls && RecordOk(s.calls[d]) && !s.calls[d].handler.Refused?
    ensures NoRequest(es) && AllQuiet(es)
    ensures Run(s, es) == Some(Put(s, d, r)) && RecordOk(r) && r.established.Some? && r.key == s.calls[d].key
    ensures r.call == s.calls[d].call
  {
    es, r := [], s.calls[d];
    PutTwice(s, d, r, r);
    hide Put, Step;
    if r.handler.Entered? {
      es := ExtendLocal(s, es, OpenStream(d), s, r);
      r := r.(handler := Opened);
    }
    if r.handler.Opened? {
      es := ExtendLocal(s, es, Announce(d), s, r);
      r := r.(handler := Announced, established := Some(r.key));
    }
  }

  lemma TakesOrphan(s: Net, c: CallId, d: CallId) returns (es: seq<Event>)
    requires c in s.calls && Promising(s.calls[c]) && d != c
    requires d in s.calls && RecordOk(s.calls[d]) && !s.calls[d].handler.Refused? && d !in s.holds.Values
    ensures NoRequest(es) && Run(s, es).Some? && !OwnStream(Run(s, es).value, c)
  {
    var r, t;
    es, r := ReachAnnounced(s, d);
    t := Put(s, d, r);
    PutTwice(t, c, t.calls[c], t.calls[c]);
    hide Run;
    es := ReachAccepting(s, es, c, t, t.calls[c]);
    es, t := Extend(s, es, Accept(c, d), Put(t, c, Record(t.calls[c].key, Accepting, Responded, Some(t.calls[c].key))));
  }

  /** Every stream that can still be accepted and looks like that of call c has the property p. */
  ghost predicate AllLookalikes(s: Net, c: CallId, p: CallId -> bool)
    requires c in s.calls
  {
    forall x <- s.calls :: LeavesNothing(s, x) || s.calls[x].key != s.calls[c].key || p(x)
  }

  ghost predicate OkOnlyWith(s: Net, c: CallId, p: CallId -> bool) {
    Is(s, c, Subscribed) && c in s.holds ==> p(s.holds[c])
  }

  /** Call c holds no stream, a stream of another kind, or one with the property. */
  ghost predicate HoldsNoOther(s: Net, c: CallId, p: CallId -> bool) {
    && c in s.calls && AllLookalikes(s, c, p)
    && (c in s.holds ==> s.holds[c] in s.calls && (s.calls[s.holds[c]].key != s.calls[c].key || p(s.holds[c])))
  }

  lemma LookalikesStep(s: Net, e: Event, c: CallId, p: CallId -> bool)
    requires Inv(s) && HoldsNoOther(s, c, p) && Step(s, e).Some? && !e.Request?
    ensures HoldsNoOther(Step(s, e).value, c, p)
  {
    var t := Step(s, e).value;
    EventsAdvance(s, e);
    if e.Accept? {
      assert RecordOk(s.calls[e.stream]) && HoldingOk(s, e.c);
      HeldStaysHeld(s.holds, e.c, e.stream);
    }
    hide Inv;
    forall x <- t.calls
      ensures LeavesNothing(t, x) || t.calls[x].key != t.calls[c].key || p(x)
    {
      assert LeavesNothing(s, x) ==> LeavesNothing(t, x);
    }
  }

  lemma {:induction false} LookalikesRun(s: Net, es: seq<Event>, c: CallId, p: CallId -> bool)
    requires Inv(s) && HoldsNoOther(s, c, p) && Run(s, es).Some? && NoRequest(es)
    ensures Inv(Run(s, es).value) && HoldsNoOther(Run(s, es).value, c, p)
  {
    hide Step, Inv, HoldsNoOther;
    if es != [] {
      var es0 := es[..|es| - 1];
      assert forall e <- es0 :: e in es;
      LookalikesRun(s, es0, c, p);
      StepKeepsInv(Run(s, es0).value, es[|es| - 1]);
      LookalikesStep(Run(s, es0).value, es[|es| - 1], c, p);
    }
  }

  /** From an accepting call and an unheld stream that looks like its own to a call that has returned Ok. */
  lemma AcceptAndSucceed(s0: Net, es: seq<Event>, s: Net, c: CallId, x: CallId) returns (fs: seq<Event>)
    requires Run(s0, es) == Some(s) && Inv(s) && NoRequest(es)
    requires Is(s, c, Accepting) && Available(s, x) && s.calls[x].key == s.calls[c].key
    ensures NoRequest(fs) && Run(s0, fs).Some?
    ensures Is(Run(s0, fs).value, c, Subscribed) && c in Run(s0, fs).value.holds && Run(s0, fs).value.holds[c] == x
  {
    hide Run;
    assert RecordOk(s.calls[x]);
    var t;
    fs, t := Extend(s0, es, Accept(c, x), s);
    assert t.calls[x].established == Some(s.calls[x].key) && t.calls[c].key == s.calls[c].key;
    fs, t := Extend(s0, fs, ReadEstablished(c), t);
  }

  /** Call c can accept the stream of x, which looks like its own, and return Ok. */
  lemma OkWithLookalike(s: Net, c: CallId, x: CallId) returns (es: seq<Event>)
    requires Inv(s) && c in s.calls && Promising(s.calls[c])
    requires x in s.calls && !LeavesNothing(s, x) && s.calls[x].key == s.calls[c].key
    ensures NoRequest(es) && Run(s, es).Some?
    ensures Is(Run(s, es).value, c, Subscribed) && c in Run(s, es).value.holds && Run(s, es).value.holds[c] == x
  {
    assert RecordOk(s.calls[x]);
    var r, t;
    es, t := [], s;
    if x != c {
      es, r := ReachAnnounced(s, x);
      t := Put(s, x, r);
    }
    es, t := MakeAccepting(s, es, t, c);
    RunKeepsInv(s, es);
    hide Run, Inv;
    es := AcceptAndSucceed(s, es, t, c, x);
  }

  /**
   What an Ok is worth: as long as no new call is made, call c returns Ok only with a stream that has the
   property p, in whatever order and with whatever errors things happen, if and only if every stream that can
   still be accepted and starts like that of c has it.  For `subscribe` and `notify`, whose streams start with
   their names, that is so of every property of the names; for `open_stream`, whose streams all start alike,
   it takes that every raw stream not yet accepted has the property.
   */
  lemma OkOnlyWithExactly(s: Net, c: CallId, p: CallId -> bool)
    requires Inv(s) && c in s.calls && Promising(s.calls[c])
    ensures (forall es: seq<Event> :: NoRequest(es) && Run(s, es).Some? ==> OkOnlyWith(Run(s, es).value, c, p))
            <==> AllLookalikes(s, c, p)
  {
    assert HoldingOk(s, c);
    if AllLookalikes(s, c, p) {
      forall es: seq<Event> | NoRequest(es) && Run(s, es).Some?
        ensures OkOnlyWith(Run(s, es).value, c, p)
      {
        LookalikesRun(s, es, c, p);
        OkHoldsLookalike(Run(s, es).value, c, p);
      }
    } else {
      var x :| x in s.calls && !LeavesNothing(s, x) && s.calls[x].key == s.calls[c].key && !p(x);
      hide Inv, Run;
      var es := OkWithLookalike(s, c, x);
      assert !OkOnlyWith(Run(s, es).value, c, p);
    }
  }

  lemma OkHoldsLookalike(s: Net, c: CallId, p: CallId -> bool)
    requires Inv(s) && HoldsNoOther(s, c, p)
    ensures OkOnlyWith(s, c, p)
  {
    assert HoldingOk(s, c);
  }

  /**
   Exactly when a call is sure of its own stream: as long as no new call is made, whatever stream it accepts
   is the one opened for its own request, in whatever order and with whatever errors things happen, if and
   only if every other stream is held by some call or was refused before it was announced.
   */
  lemma GetsItsOwnExactly(s: Net, c: CallId)
    requires Inv(s) && c in s.calls && Promising(s.calls[c])
    ensures (forall es: seq<Event> :: NoRequest(es) && Run(s, es).Some? ==> OwnStream(Run(s, es).value, c))
            <==> OthersLeaveNothing(s, c)
  {
    assert HoldingOk(s, c);
    if OthersLeaveNothing(s, c) {
      forall es: seq<Event> | NoRequest(es) && Run(s, es).Some?
        ensures OwnStream(Run(s, es).value, c)
      {
        OnlyItsOwnRun(s, es, c);
      }
    } else {
      var d :| d in s.calls && d != c && !LeavesNothing(s, d);
      assert RecordOk(s.calls[d]);
      hide Inv, Run;
      var es := TakesOrphan(s, c, d);
    }
  }

  /** In particular for a call made when all earlier ones have returned: the streams in question are theirs. */
  lemma LoneCallGetsItsOwnExactly(s: Net, c: CallId, key: Opening)
    requires Inv(s) && AllReturned(s) && Step(s, Request(c, key)).Some?
    ensures var t := Step(s, Request(c, key)).value;
            (forall es: seq<Event> :: NoRequest(es) && Run(t, es).Some? ==> OwnStream(Run(t, es).value, c))
            <==> NoStreamLeft(s)
  {
    StepKeepsInv(s, Request(c, key));
    RequestAlone(s, c, key);
    GetsItsOwnExactly(Step(s, Request(c, key)).value, c);
  }

  /** Each request is sent only when all earlier calls are over and have left no stream behind. */
  ghost predicate Sequential(es: seq<Event>) {
    es != [] ==>
      && Sequential(es[..|es| - 1])
      && Run(INIT, es).Some?
      && (es[|es| - 1].Request? ==>
            AllReturned(Run(INIT, es[..|es| - 1]).value) && NoStreamLeft(Run(INIT, es[..|es| - 1]).value))
  }

  /** Every call holds its own stream, if any. */
  ghost predicate OwnStreams(s: Net) {
    forall c <- s.holds :: OwnStream(s, c)
  }

  /** In a run of such calls every one gets the stream of its own request. */
  lemma {:induction false} SequentialCallsGetTheirOwn(es: seq<Event>)
    requires Sequential(es)
    ensures Run(INIT, es).Some? && OwnStreams(Run(INIT, es).value)
    ensures Run(INIT, es).value.calls == map[] || exists c :: Alone(Run(INIT, es).value, c)
  {
    if es != [] {
      var s, e := Run(INIT, es[..|es| - 1]).value, es[|es| - 1];
      SequentialCallsGetTheirOwn(es[..|es| - 1]);
      RunKeepsInv(INIT, es[..|es| - 1]);
      hide Inv, Alone, AllReturned, NoStreamLeft;
      if e.Request? {
        RequestAlone(s, e.c, e.key);
        assert forall d <- s.holds :: OwnStream(s, d);
      } else {
        assert s.calls != map[];
        var c :| Alone(s, c);
        AloneStep(s, e, c);
        hide Step;
        assert forall d <- s.holds :: OwnStream(s, d);
      }
    }
  }

  /** Calls that have all returned Ok leave nothing behind. */
  lemma AllOkLeavesNothing(s: Net)
    requires Inv(s) && AllSubscribed(s)
    ensures AllReturned(s) && NoStreamLeft(s)
  {
    hide Inv, Injective;
    assert AllReturned(s) by {
      assert forall c <- s.calls :: Is(s, c, Subscribed);
    }
    HoldsOnto(s);
    hide AllSubscribed, AllReturned, Is;
    forall c <- s.calls
      ensures LeavesNothing(s, c)
    {
      assert c in s.holds.Values;
    }
  }

  // ---------------------------------------------------------------------------------------------
  // Requests the server does not grant
  // ---------------------------------------------------------------------------------------------

  /** A request can be refused until its stream is announced; the call then fails, and never has a stream. */
  lemma RefusalEndsCall(s: Net, c: CallId)
    requires Is(s, c, Requested) && (s.calls[c].handler.Entered? || s.calls[c].handler.Opened?)
    ensures Run(s, [Refuse(c), ReadResponse(c)]) == Some(Put(s, c, s.calls[c].(handler := Refused, call := Failed)))
  {
    var both, r := [Refuse(c), ReadResponse(c)], s.calls[c];
    assert both[..1] == [Refuse(c)] && both[..1][..0] == [];
    assert Run(s, both[..1][..0]) == Some(s);
    PutTwice(s, c, r.(handler := Refused), r.(handler := Refused, call := Failed));
    assert Run(s, both[..1]) == Some(Put(s, c, r.(handler := Refused)));
  }

  /** A call can run into an error as long as it has not returned, and then returns it. */
  lemma ErrorsEndCalls(s: Net, c: CallId)
    requires c in s.calls
    ensures if Returned(s.calls[c]) then Step(s, Abort(c)).None?
            else Step(s, Abort(c)) == Some(Put(s, c, s.calls[c].(call := Failed)))
  {
  }

  /** A response that gets lost leaves an announced stream that no task serves and that any call may accept;
      the call itself can only run into an error. */
  lemma LostResponseLeavesStream(s: Net, c: CallId, e: Event)
    requires Inv(s) && Is(s, c, Requested) && s.calls[c].handler.Announced? && c !in s.holds.Values
    ensures Step(s, LoseResponse(c)).Some?
    ensures var t := Step(s, LoseResponse(c)).value;
            && Available(t, c) && Step(t, Abort(c)).Some?
            && (Step(t, e).Some? && e.c == c ==> e == Abort(c))
  {
    assert RecordOk(s.calls[c]);
  }

  // ---------------------------------------------------------------------------------------------
  // What overlap and failure can do
  // ---------------------------------------------------------------------------------------------

  /** A new call, up to the point where its response has been read and its stream can be accepted. */
  lemma NewAccepting(c: CallId, key: Opening, es: seq<Event>, s: Net) returns (fs: seq<Event>, t: Net)
    requires Run(INIT, es) == Some(s) && c !in s.calls
    ensures Run(INIT, fs) == Some(t) && t == Put(s, c, Record(key, Accepting, Responded, Some(key)))
  {
    fs, t := Extend(INIT, es, Request(c, key), s);
    fs := ReachAccepting(INIT, fs, c, s, Record(key, Requested, Entered, None));
    t := Put(s, c, Record(key, Accepting, Responded, Some(key)));
  }

  /** Calls 0 and 1, both answered. */
  function Two(k0: Opening, p0: Call, k1: Opening, p1: Call, holds: map<CallId, CallId>): Net {
    Net(map[0 := Record(k0, p0, Responded, Some(k0)), 1 := Record(k1, p1, Responded, Some(k1))], holds)
  }

  lemma TwoMoves(k0: Opening, p0: Call, k1: Opening, p1: Call, p: Call, holds: map<CallId, CallId>)
    ensures var s := Two(k0, p0, k1, p1, holds);
            && Put(s, 0, s.calls[0].(call := p)) == Two(k0, p, k1, p1, holds)
            && Put(s, 1, s.calls[1].(call := p)) == Two(k0, p0, k1, p, holds)
  {
    var s := Two(k0, p0, k1, p1, holds);
    assert Put(s, 0, s.calls[0].(call := p)).calls == Two(k0, p, k1, p1, holds).calls;
    assert Put(s, 1, s.calls[1].(call := p)).calls == Two(k0, p0, k1, p, holds).calls;
  }

  lemma AcceptsCrosswise(k0: Opening, k1: Opening)
    ensures Step(Two(k0, Accepting, k1, Accepting, map[]), Accept(0, 1)) ==
            Some(Two(k0, Holding, k1, Accepting, map[0 := 1]))
    ensures Step(Two(k0, Holding, k1, Accepting, map[0 := 1]), Accept(1, 0)) ==
            Some(Two(k0, Holding, k1, Holding, map[0 := 1, 1 := 0]))
  {
    var held: map<CallId, CallId> := map[0 := 1];
    assert held[0] == 1 && held.Values == {1};
    TwoMoves(k0, Accepting, k1, Accepting, Holding, map[]);
    TwoMoves(k0, Holding, k1, Accepting, Holding, held);
  }

  lemma ReadsCrosswise(k0: Opening, k1: Opening, p: Call)
    requires p == if k0 == k1 then Subscribed else Failed
    ensures var holds := map[0 := 1, 1 := 0];
            && Step(Two(k0, Holding, k1, Holding, holds), ReadEstablished(0)) == Some(Two(k0, p, k1, Holding, holds))
            && Step(Two(k0, p, k1, Holding, holds), ReadEstablished(1)) == Some(Two(k0, p, k1, p, holds))
  {
    var holds: map<CallId, CallId> := map[0 := 1, 1 := 0];
    TwoMoves(k0, Holding, k1, Holding, p, holds);
    TwoMoves(k0, p, k1, Holding, p, holds);
  }

  /** Two overlapping calls whose streams arrive crosswise: for one resource both succeed, each with the
      other's stream; for two resources both fail, though no transport error occurred. */
  lemma Crosswise(k0: Opening, k1: Opening) returns (es: seq<Event>)
    ensures Run(INIT, es).Some? && Run(INIT, es).value.holds == map[0 := 1, 1 := 0]
    ensures forall c <- [0, 1] :: Is(Run(INIT, es).value, c, if k0 == k1 then Subscribed else Failed)
  {
    var s;
    es, s := NewAccepting(0, k0, [], INIT);
    es, s := NewAccepting(1, k1, es, s);
    assert s == Two(k0, Accepting, k1, Accepting, map[]);
    hide Step, Run;
    AcceptsCrosswise(k0, k1);
    ReadsCrosswise(k0, k1, if k0 == k1 then Subscribed else Failed);
    es, s := Extend(INIT, es, Accept(0, 1), s);
    es, s := Extend(INIT, es, Accept(1, 0), s);
    es, s := Extend(INIT, es, ReadEstablished(0), s);
    es, s := Extend(INIT, es, ReadEstablished(1), s);
  }

  lemma OrphanAccepted(k0: Opening, k1: Opening)
    requires k0 != k1
    ensures Step(Two(k0, Failed, k1, Accepting, map[]), Accept(1, 0)) == Some(Two(k0, Failed, k1, Holding, map[1 := 0]))
    ensures Step(Two(k0, Failed, k1, Holding, map[1 := 0]), ReadEstablished(1)) ==
            Some(Two(k0, Failed, k1, Failed, map[1 := 0]))
  {
    var holds: map<CallId, CallId> := map[1 := 0];
    TwoMoves(k0, Failed, k1, Accepting, Holding, map[]);
    TwoMoves(k0, Failed, k1, Holding, Failed, holds);
  }

  /** A call that fails after its stream was opened leaves that stream to the next call, which - though
      it overlaps with nothing - then fails for any other resource. */
  lemma OrphanedStream(k0: Opening, k1: Opening) returns (es: seq<Event>)
    requires k0 != k1
    ensures Run(INIT, es).Some? && Is(Run(INIT, es).value, 0, Failed) && Is(Run(INIT, es).value, 1, Failed)
    ensures Run(INIT, es).value.holds == map[1 := 0]
  {
    var s;
    es, s := NewAccepting(0, k0, [], INIT);
    es, s := Extend(INIT, es, Abort(0), s);
    es, s := NewAccepting(1, k1, es, s);
    assert s.calls == Two(k0, Failed, k1, Accepting, map[]).calls;
    hide Step, Run;
    OrphanAccepted(k0, k1);
    es, s := Extend(INIT, es, Accept(1, 0), s);
    es, s := Extend(INIT, es, ReadEstablished(1), s);
  }
}
