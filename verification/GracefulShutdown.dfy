/**
 Graceful shutdown of a server: any number of connection handlers, stream tasks and callers of
 `shutdown`, each taking one atomic action per event (zel_core/src/protocol/server.rs,
 zel_core/src/protocol/builder.rs).

 Only tasks that run `handle_stream` hold a guard; what those tasks spawn in their turn is not counted
 and hence not part of what is proved here.
 */
module GracefulShutdown {
  import opened Wrappers
  import T = TaskTracking

  type HandlerId = nat
  type CallerId = T.WaiterId

  /** Where the accept loop of one connection stands. */
  datatype Handler =
    | LoopTop                     // running the connection hook, or between two iterations
    | Selecting(signalled: bool)  // in `select!`; signalled: its `notified()` has been woken
    | Accepted(ok: bool)          // `accept_bi` returned, the flag is still to be read
    | Cleared(ok: bool)           // the flag was read as false
    | Stopped

  /** Where one call of `shutdown` stands; from `Waiting` on, the tracker knows more. */
  datatype Caller =
    | FlagStored
    | Signalled
    | Waiting
    | Failed(remainingTasks: int)

  datatype Server = Server(
    tracker: T.Tracker,
    isShuttingDown: bool,
    handlers: map<HandlerId, Handler>,
    callers: map<CallerId, Caller>)

  const INIT := Server(T.INIT, false, map[], map[])

  datatype Event =
    | Connect(h: HandlerId)
    | EnterSelect(h: HandlerId)
    | BreakOnSignal(h: HandlerId)
    | AcceptStream(h: HandlerId, ok: bool)
    | CheckFlag(h: HandlerId)
    | Spawn(h: HandlerId, g: T.GuardId)
    | BreakOnError(h: HandlerId)
    | FinishTask(g: T.GuardId)
    | NotifyTracker(g: T.GuardId)
    | StoreFlag(c: CallerId)
    | SignalHandlers(c: CallerId)
    | BeginWait(c: CallerId)
    | Wait(e: T.Event)
    | ReadRemaining(c: CallerId)

  predicate Is(s: Server, h: HandlerId, p: Handler) {
    h in s.handlers && s.handlers[h] == p
  }

  predicate Calling(s: Server, c: CallerId, p: Caller) {
    c in s.callers && s.callers[c] == p
  }

  function SignalAll(m: map<HandlerId, Handler>): map<HandlerId, Handler> {
    map h | h in m :: if m[h].Selecting? then Selecting(true) else m[h]
  }

  function Set(s: Server, h: HandlerId, p: Handler): Server {
    s.(handlers := s.handlers[h := p])
  }

  function Track(s: Server, e: T.Event): Option<Server> {
    var t := T.Step(s.tracker, e);
    if t.None? then None else Some(s.(tracker := t.value))
  }

  /** The waiting events of a shutdown call (loads, registration, wake-up, time-out). */
  predicate IsWaitEvent(e: T.Event) {
    e.ReadCount? || e.Register? || e.Resume? || e.TimeOut?
  }

  function Step(s: Server, e: Event): Option<Server> {
    match e
    case Connect(h) => if h in s.handlers then None else Some(Set(s, h, LoopTop))
    case EnterSelect(h) => if Is(s, h, LoopTop) then Some(Set(s, h, Selecting(false))) else None
    case BreakOnSignal(h) => if Is(s, h, Selecting(true)) then Some(Set(s, h, Stopped)) else None
    case AcceptStream(h, ok) =>
      // with both branches ready, `select!` may take either
      if Is(s, h, Selecting(false)) || Is(s, h, Selecting(true)) then Some(Set(s, h, Accepted(ok))) else None
    case CheckFlag(h) =>
      if h in s.handlers && s.handlers[h].Accepted? then
        Some(Set(s, h, if s.isShuttingDown then Stopped else Cleared(s.handlers[h].ok)))
      else None
    case Spawn(h, g) =>
      if Is(s, h, Cleared(true)) then Track(Set(s, h, LoopTop), T.Increment(g)) else None
    case BreakOnError(h) => if Is(s, h, Cleared(false)) then Some(Set(s, h, Stopped)) else None
    case FinishTask(g) => Track(s, T.FetchSub(g))
    case NotifyTracker(g) => Track(s, T.NotifyWaiters(g))
    case StoreFlag(c) =>
      if c in s.callers then None
      else Some(s.(isShuttingDown := true, callers := s.callers[c := FlagStored]))
    case SignalHandlers(c) =>
      if Calling(s, c, FlagStored) then
        Some(s.(handlers := SignalAll(s.handlers), callers := s.callers[c := Signalled]))
      else None
    case BeginWait(c) =>
      if Calling(s, c, Signalled) then Track(s.(callers := s.callers[c := Waiting]), T.Enter(c)) else None
    case Wait(w) => if IsWaitEvent(w) then Track(s, w) else None
    case ReadRemaining(c) =>
      if Calling(s, c, Waiting) && T.At(s.tracker, c, T.TimedOut) then
        Some(s.(callers := s.callers[c := Failed(s.tracker.count)]))
      else None
  }

  function Run(s: Server, es: seq<Event>): Option<Server> {
    if es == [] then Some(s)
    else
      var p := Run(s, es[..|es| - 1]);
      if p.None? then None else Step(p.value, es[|es| - 1])
  }

  /** `shutdown` returned Ok to caller c. */
  predicate ReturnedOk(s: Server, c: CallerId) {
    Calling(s, c, Waiting) && T.At(s.tracker, c, T.Completed)
  }

  // ---------------------------------------------------------------------------------------------
  // Every run of the server is a run of its tracker
  // ---------------------------------------------------------------------------------------------

  function TrackerEvent(e: Event): seq<T.Event> {
    match e
    case Spawn(_, g) => [T.Increment(g)]
    case FinishTask(g) => [T.FetchSub(g)]
    case NotifyTracker(g) => [T.NotifyWaiters(g)]
    case BeginWait(c) => [T.Enter(c)]
    case Wait(w) => [w]
    case _ => []
  }

  function TrackerRun(es: seq<Event>): seq<T.Event> {
    if es == [] then [] else TrackerRun(es[..|es| - 1]) + TrackerEvent(es[|es| - 1])
  }

  lemma StepProjects(s: Server, e: Event)
    requires Step(s, e).Some?
    ensures if TrackerEvent(e) == [] then Step(s, e).value.tracker == s.tracker
            else T.Step(s.tracker, TrackerEvent(e)[0]) == Some(Step(s, e).value.tracker)
  {
  }

  lemma {:induction false} RunProjects(s: Server, es: seq<Event>)
    requires Run(s, es).Some?
    ensures T.Run(s.tracker, TrackerRun(es)) == Some(Run(s, es).value.tracker)
  {
    if es != [] {
      var es0, e := es[..|es| - 1], es[|es| - 1];
      RunProjects(s, es0);
      StepProjects(Run(s, es0).value, e);
      if TrackerEvent(e) == [] {
        assert TrackerRun(es) == TrackerRun(es0);
      } else {
        T.RunExtended(s.tracker, TrackerRun(es0), TrackerEvent(e)[0]);
        assert TrackerRun(es) == TrackerRun(es0) + [TrackerEvent(e)[0]];
      }
    }
  }

  /** In every reachable state the counter equals the number of stream tasks still running. */
  lemma CountIsRunningTasks(es: seq<Event>)
    requires Run(INIT, es).Some?
    ensures Run(INIT, es).value.tracker.count == |Run(INIT, es).value.tracker.live|
  {
    RunProjects(INIT, es);
    T.RunKeepsInv(T.INIT, TrackerRun(es));
  }

  // ---------------------------------------------------------------------------------------------
  // After the flag is stored
  // ---------------------------------------------------------------------------------------------

  function SpawnsBy(es: seq<Event>, h: HandlerId): nat {
    if es == [] then 0
    else SpawnsBy(es[..|es| - 1], h) + if es[|es| - 1].Spawn? && es[|es| - 1].h == h then 1 else 0
  }

  /** The events that advance the accept loop of handler h. */
  predicate LoopEvent(e: Event, h: HandlerId) {
    match e
    case EnterSelect(x) => x == h
    case BreakOnSignal(x) => x == h
    case AcceptStream(x, _) => x == h
    case CheckFlag(x) => x == h
    case Spawn(x, _) => x == h
    case BreakOnError(x) => x == h
    case _ => false
  }

  function LoopEvents(es: seq<Event>, h: HandlerId): nat {
    if es == [] then 0
    else LoopEvents(es[..|es| - 1], h) + if LoopEvent(es[|es| - 1], h) then 1 else 0
  }

  /** Loop events a handler can still take once the flag is set; a handler not yet connected counts
      like one at the top of its loop. */
  function LoopRank(s: Server, h: HandlerId): nat {
    if h !in s.handlers then 4
    else match s.handlers[h]
      case Cleared(ok) => if ok then 5 else 1
      case LoopTop => 4
      case Selecting(signalled) => 3
      case Accepted(_) => 2
      case Stopped => 0
  }

  /** A handler may still spawn iff it read the flag before the flag was stored and has a stream. */
  function SpawnsLeft(s: Server, h: HandlerId): nat {
    if Is(s, h, Cleared(true)) then 1 else 0
  }

  lemma FlagStep(s: Server, e: Event, h: HandlerId)
    requires s.isShuttingDown && Step(s, e).Some?
    ensures Step(s, e).value.isShuttingDown
    ensures LoopRank(Step(s, e).value, h) + (if LoopEvent(e, h) then 1 else 0) <= LoopRank(s, h)
    ensures SpawnsLeft(Step(s, e).value, h) + (if e.Spawn? && e.h == h then 1 else 0) <= SpawnsLeft(s, h)
  {
  }

  /**
   Once the flag is stored, a handler takes at most five more loop events - whether or not it heard the
   signal - and spawns at most one more stream task: one if its flag check came before the store, none
   otherwise, in particular none for a connection that arrives later.
   */
  lemma {:induction false} HandlersWindDown(s: Server, es: seq<Event>, h: HandlerId)
    requires s.isShuttingDown && Run(s, es).Some?
    ensures Run(s, es).value.isShuttingDown
    ensures LoopEvents(es, h) + LoopRank(Run(s, es).value, h) <= LoopRank(s, h) <= 5
    ensures SpawnsBy(es, h) + SpawnsLeft(Run(s, es).value, h) <= SpawnsLeft(s, h) <= 1
  {
    if es != [] {
      HandlersWindDown(s, es[..|es| - 1], h);
      FlagStep(Run(s, es[..|es| - 1]).value, es[|es| - 1], h);
    }
  }

  /** A handler that the signal finds in `select!`, or past `accept_bi` and on its way out. */
  predicate Reached(s: Server, h: HandlerId) {
    h in s.handlers
    && match s.handlers[h]
       case Selecting(_) => true
       case Accepted(_) => true
       case Cleared(ok) => !ok
       case Stopped => true
       case LoopTop => false
  }

  /** No further signal, and the peer of h opens no stream and does not close the connection. */
  ghost predicate NoNews(es: seq<Event>, h: HandlerId) {
    forall e <- es :: !e.SignalHandlers? && !(e.AcceptStream? && e.h == h)
  }

  /** Handler h can do nothing but wait for its peer. */
  ghost predicate AtRest(s: Server, h: HandlerId) {
    forall e: Event :: LoopEvent(e, h) && !e.AcceptStream? ==> Step(s, e).None?
  }

  predicate OnItsWayOut(s: Server, h: HandlerId) {
    Reached(s, h) && s.handlers[h] != Selecting(false)
  }

  predicate Missed(s: Server, h: HandlerId) {
    Is(s, h, LoopTop) || Is(s, h, Cleared(true)) || Is(s, h, Selecting(false))
  }

  lemma NoNewsStep(s: Server, e: Event, h: HandlerId)
    requires s.isShuttingDown && Step(s, e).Some? && !e.SignalHandlers? && !(e.AcceptStream? && e.h == h)
    ensures Step(s, e).value.isShuttingDown
    ensures OnItsWayOut(s, h) ==> OnItsWayOut(Step(s, e).value, h)
    ensures Missed(s, h) ==> Missed(Step(s, e).value, h)
  {
  }

  lemma {:induction false} NoNewsRun(s: Server, es: seq<Event>, h: HandlerId)
    requires s.isShuttingDown && Run(s, es).Some? && NoNews(es, h)
    ensures Run(s, es).value.isShuttingDown
    ensures OnItsWayOut(s, h) ==> OnItsWayOut(Run(s, es).value, h)
    ensures Missed(s, h) ==> Missed(Run(s, es).value, h)
  {
    hide Step, OnItsWayOut, Missed;
    if es != [] {
      var es0 := es[..|es| - 1];
      assert forall e <- es0 :: e in es;
      NoNewsRun(s, es0, h);
      NoNewsStep(Run(s, es0).value, es[|es| - 1], h);
    }
  }

  lemma RestingHandler(s: Server, h: HandlerId)
    requires s.isShuttingDown && AtRest(s, h)
    ensures OnItsWayOut(s, h) ==> Is(s, h, Stopped)
    ensures Missed(s, h) ==> Is(s, h, Selecting(false))
  {
    var g := FreshGuard(s.tracker.live + s.tracker.pending);
    assert LoopEvent(EnterSelect(h), h) && LoopEvent(BreakOnSignal(h), h) && LoopEvent(CheckFlag(h), h);
    assert LoopEvent(BreakOnError(h), h) && LoopEvent(Spawn(h, g), h);
  }

  /**
   What the signal alone achieves: with no news from its peer, a handler ends up stopped if and only if the
   signal found it in `select!` or on its way out; any other ends up waiting for its peer, unsignalled.
   */
  lemma SignalStopsExactly(s: Server, c: CallerId, es: seq<Event>, h: HandlerId)
    requires s.isShuttingDown && h in s.handlers && Step(s, SignalHandlers(c)).Some?
    requires var t := Step(s, SignalHandlers(c)).value;
             Run(t, es).Some? && NoNews(es, h) && AtRest(Run(t, es).value, h)
    ensures var end := Run(Step(s, SignalHandlers(c)).value, es).value;
            && (Is(end, h, Stopped) <==> Reached(s, h))
            && (Is(end, h, Selecting(false)) <==> !Reached(s, h))
  {
    var t := Step(s, SignalHandlers(c)).value;
    assert if Reached(s, h) then OnItsWayOut(t, h) else Missed(t, h);
    hide Step, OnItsWayOut, Missed, AtRest;
    NoNewsRun(t, es, h);
    RestingHandler(Run(t, es).value, h);
  }

  lemma FreshGuard(used: set<nat>) returns (g: nat)
    ensures g !in used
    ensures forall u <- used :: u < g
  {
    if used == {} {
      g := 0;
    } else {
      var u :| u in used;
      var h := FreshGuard(used - {u});
      assert used == (used - {u}) + {u};
      g := if u < h then h else u + 1;
    }
  }

  // ---------------------------------------------------------------------------------------------
  // What Ok from `shutdown` means
  // ---------------------------------------------------------------------------------------------

  lemma WaiterStep(t: T.Tracker, e: T.Event, c: CallerId)
    requires T.Step(t, e).Some?
    ensures c in t.waiters ==> c in T.Step(t, e).value.waiters
    ensures c !in t.waiters && c in T.Step(t, e).value.waiters ==> e == T.Enter(c)
    ensures T.At(T.Step(t, e).value, c, T.Completed) ==>
              T.At(t, c, T.Completed) || (e == T.ReadCount(c) && t.count == 0)
  {
  }

  lemma CallerStep(s: Server, e: Event, c: CallerId)
    requires Step(s, e).Some?
    requires c in s.tracker.waiters ==> c in s.callers
    requires c in s.callers ==> s.isShuttingDown
    ensures c in Step(s, e).value.tracker.waiters ==> c in Step(s, e).value.callers
    ensures c in Step(s, e).value.callers ==> Step(s, e).value.isShuttingDown
    ensures c in Step(s, e).value.callers && c !in s.callers ==> e == StoreFlag(c)
    ensures ReturnedOk(Step(s, e).value, c) && !ReturnedOk(s, c) ==>
              e == Wait(T.ReadCount(c)) && s.tracker.count == 0 && c in s.callers
  {
    if TrackerEvent(e) != [] {
      WaiterStep(s.tracker, TrackerEvent(e)[0], c);
    }
  }

  /** Event i of the run is c's store of the flag, and event j > i a load by c that found no task. */
  ghost predicate StoredThenReadZero(es: seq<Event>, c: CallerId, i: nat, j: nat) {
    && i < j < |es|
    && es[i] == StoreFlag(c)
    && es[j] == Wait(T.ReadCount(c))
    && Run(INIT, es[..j]).Some?
    && Run(INIT, es[..j]).value.tracker.count == 0
  }

  /** `shutdown` returns Ok only after it stored the flag and then read the count as 0. */
  lemma OkMeansReadZeroAfterStore(es: seq<Event>, c: CallerId) returns (i: nat, j: nat)
    requires Run(INIT, es).Some? && ReturnedOk(Run(INIT, es).value, c)
    ensures StoredThenReadZero(es, c, i, j)
  {
    var es0 := es[..|es| - 1];
    CallersHaveStored(es0, c);
    var s0 := Run(INIT, es0).value;
    CallerStep(s0, es[|es| - 1], c);
    if ReturnedOk(s0, c) {
      i, j := OkMeansReadZeroAfterStore(es0, c);
      assert es[..j] == es0[..j];
    } else {
      i := StoreOf(es0, c);
      j := |es| - 1;
    }
  }

  lemma {:induction false} CallersHaveStored(es: seq<Event>, c: CallerId)
    requires Run(INIT, es).Some?
    ensures var s := Run(INIT, es).value;
            && (c in s.tracker.waiters ==> c in s.callers)
            && (c in s.callers ==> s.isShuttingDown)
  {
    if es != [] {
      CallersHaveStored(es[..|es| - 1], c);
      CallerStep(Run(INIT, es[..|es| - 1]).value, es[|es| - 1], c);
    }
  }

  lemma {:induction false} StoreOf(es: seq<Event>, c: CallerId) returns (i: nat)
    requires Run(INIT, es).Some? && c in Run(INIT, es).value.callers
    ensures i < |es| && es[i] == StoreFlag(c)
  {
    var es0 := es[..|es| - 1];
    CallersHaveStored(es0, c);
    CallerStep(Run(INIT, es0).value, es[|es| - 1], c);
    if c in Run(INIT, es0).value.callers {
      i := StoreOf(es0, c);
    } else {
      i := |es| - 1;
    }
  }

  /** No handler is between a successful flag check and its increment. */
  ghost predicate NoneCleared(s: Server) {
    forall h <- s.handlers :: s.handlers[h] != Cleared(true)
  }

  lemma {:induction false} DrainedRun(s: Server, es: seq<Event>)
    requires s.isShuttingDown && s.tracker.count == 0 && T.Inv(s.tracker) && NoneCleared(s)
    requires Run(s, es).Some?
    ensures var t := Run(s, es).value;
            t.isShuttingDown && t.tracker.count == 0 && T.Inv(t.tracker) && NoneCleared(t)
  {
    if es != [] {
      DrainedRun(s, es[..|es| - 1]);
      DrainedStep(Run(s, es[..|es| - 1]).value, es[|es| - 1]);
    }
  }

  lemma DrainedStep(s: Server, e: Event)
    requires s.isShuttingDown && s.tracker.count == 0 && T.Inv(s.tracker) && NoneCleared(s)
    requires Step(s, e).Some?
    ensures var t := Step(s, e).value;
            t.isShuttingDown && t.tracker.count == 0 && T.Inv(t.tracker) && NoneCleared(t)
  {
    if TrackerEvent(e) != [] {
      T.StepKeepsInv(s.tracker, TrackerEvent(e)[0]);
    }
  }

  /**
   Once the flag is set and the count is 0, it stays 0 in every later state exactly when no handler is
   between its flag check and its increment.  The guard a caller would need is thus one `shutdown`
   does not take: see `TaskAfterOk`.
   */
  lemma ZeroIsFinalExactly(s: Server)
    requires s.isShuttingDown && s.tracker.count == 0 && T.Inv(s.tracker)
    ensures NoneCleared(s) <==> (forall es: seq<Event> :: Run(s, es).Some? ==> Run(s, es).value.tracker.count == 0)
  {
    if NoneCleared(s) {
      forall es: seq<Event> | Run(s, es).Some?
        ensures Run(s, es).value.tracker.count == 0
      {
        DrainedRun(s, es);
      }
    } else {
      var h :| h in s.handlers && s.handlers[h] == Cleared(true);
      var g := FreshGuard(s.tracker.live + s.tracker.pending);
      RunExtended(s, [], Spawn(h, g));
      assert Run(s, [] + [Spawn(h, g)]).value.tracker.count == 1;
    }
  }

  /** No task is spawned, and the wait of caller c does not time out. */
  ghost predicate NoSpawnNoTimeOut(es: seq<Event>, c: CallerId) {
    forall e <- es :: !e.Spawn? && e != Wait(T.TimeOut(c))
  }

  lemma {:induction false} NoGuardsTaken(s: Server, es: seq<Event>, c: CallerId)
    requires Run(s, es).Some? && NoSpawnNoTimeOut(es, c)
    ensures forall e <- TrackerRun(es) :: !e.Increment? && e != T.TimeOut(c)
  {
    if es != [] {
      var es0, e := es[..|es| - 1], es[|es| - 1];
      assert forall x <- es0 :: x in es;
      NoGuardsTaken(s, es0, c);
      assert e in es;
      assert forall x <- TrackerEvent(e) :: !x.Increment? && x != T.TimeOut(c);
    }
  }

  /** Whatever else happens - callers coming, returning, timing out -, while no task is spawned and none is
      left: the wait of a call that can still be woken ends in Ok. */
  lemma WaitEndsInOk(s: Server, es: seq<Event>, c: CallerId)
    requires s.tracker.live == {} && T.Inv(s.tracker) && T.WillReturnOk(s.tracker, c)
    requires Run(s, es).Some? && NoSpawnNoTimeOut(es, c)
    requires Run(s, es).value.tracker.pending == {} && T.AtRest(Run(s, es).value.tracker, c)
    ensures T.At(Run(s, es).value.tracker, c, T.Completed)
  {
    NoGuardsTaken(s, es, c);
    RunProjects(s, es);
    T.DrainedTrackerWakesEveryWaiter(s.tracker, TrackerRun(es), c);
  }

  lemma {:induction false} DrainedSpawnsNothing(s: Server, es: seq<Event>)
    requires s.isShuttingDown && s.tracker.count == 0 && T.Inv(s.tracker) && NoneCleared(s) && Run(s, es).Some?
    ensures forall e <- es :: !e.Spawn?
  {
    if es != [] {
      var es0, e := es[..|es| - 1], es[|es| - 1];
      DrainedSpawnsNothing(s, es0);
      DrainedRun(s, es0);
      assert !e.Spawn?;
      assert forall x <- es :: x in es0 || x == e;
    }
  }

  /**
   A server whose flag is set, whose tasks have ended and whose handlers are all past their last spawn: in
   every run from there, a call of `shutdown` whose own wait does not time out has been told Ok once nothing
   is owed and it has no event of its own left - unless it was caught between its load and its registration.
   */
  lemma ShutdownReturnsOk(s: Server, es: seq<Event>, c: CallerId)
    requires s.isShuttingDown && s.tracker.live == {} && T.Inv(s.tracker) && NoneCleared(s)
    requires T.WillReturnOk(s.tracker, c)
    requires Run(s, es).Some? && Wait(T.TimeOut(c)) !in es
    requires Run(s, es).value.tracker.pending == {} && T.AtRest(Run(s, es).value.tracker, c)
    ensures T.At(Run(s, es).value.tracker, c, T.Completed)
  {
    DrainedSpawnsNothing(s, es);
    WaitEndsInOk(s, es, c);
  }

  lemma RunExtended(s: Server, es: seq<Event>, e: Event)
    ensures Run(s, es + [e]) == if Run(s, es).None? then None else Step(Run(s, es).value, e)
  {
    assert (es + [e])[..|es|] == es;
  }

  lemma Extend(es: seq<Event>, e: Event, s: Server) returns (fs: seq<Event>, t: Server)
    requires Run(INIT, es) == Some(s) && Step(s, e).Some?
    ensures fs == es + [e] && Run(INIT, fs) == Some(t) && t == Step(s, e).value
  {
    RunExtended(INIT, es, e);
    fs, t := es + [e], Step(s, e).value;
  }

  /** One connection whose handler has read the flag as false and holds a stream. */
  lemma ClearedHandler() returns (es: seq<Event>, s: Server)
    ensures Run(INIT, es) == Some(s) && s == Server(T.INIT, false, map[0 := Cleared(true)], map[])
  {
    es, s := Extend([], Connect(0), INIT);
    es, s := Extend(es, EnterSelect(0), s);
    es, s := Extend(es, AcceptStream(0, true), s);
    es, s := Extend(es, CheckFlag(0), s);
  }

  lemma WaitEntered(tracker: T.Tracker, h: Handler, es: seq<Event>, s: Server) returns (fs: seq<Event>, t: Server)
    requires Run(INIT, es) == Some(s) && s == Server(tracker, false, map[0 := h], map[])
    requires !h.Selecting? && tracker.waiters == map[]
    ensures Run(INIT, fs) == Some(t)
    ensures t == Server(tracker.(waiters := map[0 := T.Entered]), true, map[0 := h], map[0 := Waiting])
  {
    hide Run;
    fs, t := Extend(es, StoreFlag(0), s);
    fs, t := Extend(fs, SignalHandlers(0), t);
    assert t == Server(tracker, true, map[0 := h], map[0 := Signalled]);
    fs, t := Extend(fs, BeginWait(0), t);
  }

  /** That handler, and a shutdown call that has found no task. */
  lemma OkWithClearedHandler() returns (es: seq<Event>, s: Server)
    ensures Run(INIT, es) == Some(s)
    ensures s == Server(T.Tracker(0, {}, {}, map[0 := T.Completed]), true, map[0 := Cleared(true)], map[0 := Waiting])
  {
    hide Run;
    es, s := ClearedHandler();
    es, s := WaitEntered(T.INIT, Cleared(true), es, s);
    es, s := Extend(es, Wait(T.ReadCount(0)), s);
  }

  /** `shutdown` can return Ok and a stream task start afterwards: the handler read the flag first. */
  lemma TaskAfterOk() returns (es: seq<Event>)
    ensures Run(INIT, es).Some?
    ensures ReturnedOk(Run(INIT, es).value, 0) && Run(INIT, es).value.tracker.live == {0}
  {
    hide Run;
    var s;
    es, s := OkWithClearedHandler();
    es, s := Extend(es, Spawn(0, 0), s);
  }

  /** One task running and one shutdown call that has seen it and is about to register. */
  lemma WaitingForOneTask() returns (es: seq<Event>, s: Server)
    ensures Run(INIT, es) == Some(s)
    ensures s == Server(T.Tracker(1, {0}, {}, map[0 := T.SawBusy]), true, map[0 := LoopTop], map[0 := Waiting])
  {
    hide Run;
    es, s := ClearedHandler();
    es, s := Extend(es, Spawn(0, 0), s);
    assert s == Server(T.Tracker(1, {0}, {}, map[]), false, map[0 := LoopTop], map[]);
    es, s := WaitEntered(T.Tracker(1, {0}, {}, map[]), LoopTop, es, s);
    es, s := Extend(es, Wait(T.ReadCount(0)), s);
    es, s := Extend(es, Wait(T.ReadCount(0)), s);
  }

  /** The task ends and wakes nobody. */
  lemma NobodyWoken() returns (es: seq<Event>, s: Server)
    ensures Run(INIT, es) == Some(s)
    ensures s == Server(T.Tracker(0, {}, {}, map[0 := T.SawBusy]), true, map[0 := LoopTop], map[0 := Waiting])
  {
    hide Run;
    es, s := WaitingForOneTask();
    es, s := Extend(es, FinishTask(0), s);
    es, s := Extend(es, NotifyTracker(0), s);
  }

  /** Seen from the server: after the lost wake-up, `shutdown` reports a time-out with no task left. */
  lemma TimeoutWithNoTaskLeft() returns (es: seq<Event>)
    ensures Run(INIT, es).Some? && Calling(Run(INIT, es).value, 0, Failed(0))
  {
    hide Run;
    var s;
    es, s := NobodyWoken();
    es, s := Extend(es, Wait(T.Register(0)), s);
    es, s := Extend(es, Wait(T.TimeOut(0)), s);
    es, s := Extend(es, ReadRemaining(0), s);
  }
}
