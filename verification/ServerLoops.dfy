/**
 The accept loop and `shutdown` as the code that runs them (zel_core/src/protocol/server.rs,
 zel_core/src/protocol/builder.rs, zel_core/src/protocol/shutdown.rs): each method is proved to take the
 steps of GracefulShutdown and no others, whatever other parties do between its atomic actions.

 What the others do is given as lists of events, none of them the party's own; those that are impossible
 when their turn comes are passed over.
 */
module ServerLoops {
  import opened Wrappers
  import T = TaskTracking
  import opened GracefulShutdown

  datatype Party = TheHandler(h: HandlerId) | TheCaller(c: CallerId)

  /** The events only this party brings about. */
  predicate Acts(p: Party, e: Event) {
    match p
    case TheHandler(h) => LoopEvent(e, h)
    case TheCaller(c) =>
      || e == StoreFlag(c) || e == SignalHandlers(c) || e == BeginWait(c) || e == ReadRemaining(c)
      || (e.Wait? && !e.e.Increment? && !e.e.FetchSub? && !e.e.NotifyWaiters? && e.e.w == c)
  }

  /** None of these events is this party's. */
  ghost predicate Foreign(p: Party, es: seq<Event>) {
    forall e <- es :: !Acts(p, e)
  }

  function LoadsBy(es: seq<Event>, c: CallerId): nat {
    if es == [] then 0
    else LoadsBy(es[..|es| - 1], c) + if es[|es| - 1] == Wait(T.ReadCount(c)) then 1 else 0
  }

  /** What is counted of a party: the tasks a handler has spawned, the loads a caller has made. */
  function Tally(es: seq<Event>, p: Party): nat {
    match p
    case TheHandler(h) => SpawnsBy(es, h)
    case TheCaller(c) => LoadsBy(es, c)
  }

  predicate Counted(p: Party, e: Event) {
    match p
    case TheHandler(h) => e.Spawn? && e.h == h
    case TheCaller(c) => e == Wait(T.ReadCount(c))
  }

  lemma TallyAppend(es: seq<Event>, e: Event, p: Party)
    ensures Tally(es + [e], p) == Tally(es, p) + if Counted(p, e) then 1 else 0
    ensures Counted(p, e) ==> Acts(p, e)
  {
    assert (es + [e])[..|es|] == es;
  }

  /** What the others may have changed about a party between two of its actions: only that it was woken. */
  predicate Undisturbed(p: Party, s: Server, t: Server) {
    match p
    case TheHandler(h) =>
      h in s.handlers ==>
        && h in t.handlers
        && (t.handlers[h] == s.handlers[h] || (s.handlers[h].Selecting? && t.handlers[h] == Selecting(true)))
    case TheCaller(c) =>
      && (c in s.callers ==> c in t.callers && t.callers[c] == s.callers[c])
      && (c in s.tracker.waiters ==>
            c in t.tracker.waiters && (t.tracker.waiters[c] == s.tracker.waiters[c]
                                       || (T.At(s.tracker, c, T.Registered) && T.At(t.tracker, c, T.Woken))))
      && (c in t.callers ==> c in s.callers)
      && (c in t.tracker.waiters ==> c in s.tracker.waiters)
  }

  /** An event takes place if it can, and is passed over if not. */
  function Goes(s: Server, e: Event): Server {
    var t := Step(s, e);
    if t.None? then s else t.value
  }

  /** The server after the others have had their turn. */
  function After(s: Server, others: seq<Event>): Server {
    if others == [] then s else Goes(After(s, others[..|others| - 1]), others[|others| - 1])
  }

  /** The server when `select!` completes. */
  function Selected(s: Server, h: HandlerId, it: Iteration): Server {
    After(Set(After(s, it.beforeSelect), h, Selecting(false)), it.inSelect)
  }

  /** Whether this iteration is the handler's last: it hears the signal, sees the flag or has no stream. */
  predicate LastIteration(s: Server, h: HandlerId, it: Iteration) {
    var selected := Selected(s, h, it);
    || (it.preferSignal && Is(selected, h, Selecting(true)))
    || After(Set(selected, h, Accepted(it.ok)), it.beforeCheck).isShuttingDown
    || !it.ok
  }

  // What a party's code should come to, given what the others do between its actions

  datatype Waited = AllDone | TimeUp | StillWaiting

  /** One sleep: the time is up, or it was woken and goes round, or it is still asleep. */
  function Slept(s: Server, c: CallerId, it: Round): (Waited, Server) {
    var asleep := After(Goes(After(s, it.beforeSleep), Wait(T.Register(c))), it.asleep);
    if it.expired then (TimeUp, Goes(asleep, Wait(T.TimeOut(c))))
    else (StillWaiting, if T.At(asleep.tracker, c, T.Woken) then Goes(asleep, Wait(T.Resume(c))) else asleep)
  }

  /** One turn of the wait loop: a load, and a sleep if it found a task. */
  function OneRound(s: Server, c: CallerId, it: Round): (Waited, Server) {
    var before := After(s, it.beforeLoad);
    var loaded := Goes(before, Wait(T.ReadCount(c)));
    if before.tracker.count == 0 then (AllDone, loaded) else Slept(loaded, c, it)
  }

  function Rounds(s: Server, c: CallerId, rounds: seq<Round>): (Waited, Server)
    decreases |rounds|
  {
    if rounds == [] then (StillWaiting, s)
    else
      var (r, t) := OneRound(s, c, rounds[0]);
      if r.StillWaiting? && T.At(t.tracker, c, T.Looping) then Rounds(t, c, rounds[1..]) else (r, t)
  }

  /** A whole wait: the first load, then the loop. */
  function WaitOutcome(s: Server, c: CallerId, first: seq<Event>, rounds: seq<Round>): (Waited, Server) {
    var before := After(s, first);
    var loaded := Goes(before, Wait(T.ReadCount(c)));
    if before.tracker.count == 0 then (AllDone, loaded) else Rounds(loaded, c, rounds)
  }

  function Announced(s: Server, c: CallerId, beforeSignal: seq<Event>, beforeWait: seq<Event>): Server {
    Goes(After(Goes(After(Goes(s, StoreFlag(c)), beforeSignal), SignalHandlers(c)), beforeWait), BeginWait(c))
  }

  /** What `shutdown` answers; pending: it has not returned yet. */
  datatype Answer = Pending | AllFinished | Timeout(remainingTasks: int)

  function ShutdownOutcome(
    s: Server, c: CallerId, beforeSignal: seq<Event>, beforeWait: seq<Event>, beforeLoad: seq<Event>,
    rounds: seq<Round>, beforeCount: seq<Event>): (Answer, Server)
  {
    var (r, t) := WaitOutcome(Announced(s, c, beforeSignal, beforeWait), c, beforeLoad, rounds);
    match r
    case StillWaiting => (Pending, t)
    case AllDone => (AllFinished, t)
    case TimeUp =>
      var u := After(t, beforeCount);
      (Timeout(u.tracker.count), Goes(u, ReadRemaining(c)))
  }

  /** A wait runs out of time only in a turn whose time is up. */
  lemma {:induction false} TimeUpOnlyIfExpired(s: Server, c: CallerId, rounds: seq<Round>)
    ensures Rounds(s, c, rounds).0 == TimeUp ==> exists i :: 0 <= i < |rounds| && rounds[i].expired
    decreases |rounds|
  {
    if rounds != [] {
      hide Slept, After, Goes, Step;
      var (r, t) := OneRound(s, c, rounds[0]);
      assert r == TimeUp ==> rounds[0].expired by { OneRoundTimeUp(s, c, rounds[0]); }
      TimeUpOnlyIfExpired(t, c, rounds[1..]);
      if Rounds(t, c, rounds[1..]).0 == TimeUp {
        var i :| 0 <= i < |rounds[1..]| && rounds[1..][i].expired;
        assert rounds[i + 1].expired;
      }
    }
  }

  lemma OneRoundTimeUp(s: Server, c: CallerId, it: Round)
    ensures OneRound(s, c, it).0 == TimeUp ==> it.expired
  {
    hide After, Goes, Step;
  }

  /** One iteration of an accept loop: what the others do before each of its atomic actions, and how its
      `select!` goes. */
  datatype Iteration = Iteration(
    beforeSelect: seq<Event>, inSelect: seq<Event>, beforeCheck: seq<Event>, beforeMatch: seq<Event>,
    preferSignal: bool, ok: bool)
  {
    ghost predicate ByOthers(p: Party) {
      Foreign(p, beforeSelect) && Foreign(p, inSelect)
      && Foreign(p, beforeCheck) && Foreign(p, beforeMatch)
    }
  }

  /** One turn of the loop in `wait_for_completion`, in the same way; `expired` tells whether the time is up
      when it would next be polled. */
  datatype Round = Round(beforeLoad: seq<Event>, beforeSleep: seq<Event>, asleep: seq<Event>, expired: bool)
  {
    ghost predicate ByOthers(p: Party) {
      Foreign(p, beforeLoad) && Foreign(p, beforeSleep) && Foreign(p, asleep)
    }
  }

  lemma OthersLeaveHandler(h: HandlerId, s: Server, e: Event)
    requires Step(s, e).Some? && !Acts(TheHandler(h), e)
    ensures Undisturbed(TheHandler(h), s, Step(s, e).value)
  {
  }

  lemma OthersLeaveCaller(c: CallerId, s: Server, e: Event)
    requires Step(s, e).Some? && !Acts(TheCaller(c), e)
    ensures Undisturbed(TheCaller(c), s, Step(s, e).value)
  {
  }

  lemma OthersDoNotDisturb(p: Party, s: Server, e: Event)
    requires Step(s, e).Some? && !Acts(p, e)
    ensures Undisturbed(p, s, Step(s, e).value)
    ensures s.isShuttingDown ==> Step(s, e).value.isShuttingDown
  {
    hide Acts, Undisturbed;
    match p {
      case TheHandler(h) => OthersLeaveHandler(h, s, e);
      case TheCaller(c) => OthersLeaveCaller(c, s, e);
    }
  }

  /** A handler is signalled only after the flag was stored. */
  lemma {:induction false} SignalMeansShutdown(es: seq<Event>, h: HandlerId)
    requires Run(INIT, es).Some?
    ensures var s := Run(INIT, es).value;
            && (Is(s, h, Selecting(true)) ==> s.isShuttingDown)
            && (s.callers != map[] ==> s.isShuttingDown)
  {
    if es != [] {
      SignalMeansShutdown(es[..|es| - 1], h);
    }
  }

  /** `RpcServer`: the flag, the tracker, and where each handler and each call of `shutdown` stands.  The
      trace is history. */
  class RpcServer {
    const tracker: T.TaskTracker
    var isShuttingDown: bool
    var handlers: map<HandlerId, Handler>
    var callers: map<CallerId, Caller>
    ghost var trace: seq<Event>

    function View(): Server
      reads this, tracker
    {
      Server(tracker.View(), isShuttingDown, handlers, callers)
    }

    /** Everything that has happened is a run. */
    ghost predicate Valid()
      reads this, tracker
    {
      Run(INIT, trace) == Some(View())
    }

    constructor ()
      ensures Valid() && trace == [] && fresh(tracker)
    {
      tracker := new T.TaskTracker();
      isShuttingDown, handlers, callers, trace := false, map[], map[], [];
    }

    ghost method Record(e: Event, before: Server)
      requires Run(INIT, trace) == Some(before) && Step(before, e) == Some(View())
      modifies this`trace
      ensures Valid() && trace == old(trace) + [e]
    {
      RunExtended(INIT, trace, e);
      trace := trace + [e];
    }

    /** One event of another party, if it is possible. */
    method OtherActs(e: Event, ghost p: Party)
      requires Valid() && !Acts(p, e)
      modifies this, tracker
      ensures Valid() && old(trace) <= trace && Tally(trace, p) == Tally(old(trace), p)
      ensures Undisturbed(p, old(View()), View())
      ensures old(isShuttingDown) ==> isShuttingDown
      ensures View() == Goes(old(View()), e)
    {
      var t := Step(View(), e);
      if t.Some? {
        ghost var before := View();
        OthersDoNotDisturb(p, before, e);
        hide Undisturbed, Acts, Run, Tally, Counted;
        if TrackerEvent(e) != [] {
          StepProjects(before, e);
          var possible := tracker.Happen(TrackerEvent(e)[0]);
        }
        StepProjects(before, e);
        hide Step, TrackerEvent;
        TallyAppend(trace, e, p);
        isShuttingDown, handlers, callers := t.value.isShuttingDown, t.value.handlers, t.value.callers;
        Record(e, before);
      }
    }

    /** Lets others act. */
    method Interfere(others: seq<Event>, ghost p: Party)
      requires Valid() && Foreign(p, others)
      modifies this, tracker
      ensures Valid() && old(trace) <= trace && Tally(trace, p) == Tally(old(trace), p)
      ensures Undisturbed(p, old(View()), View())
      ensures old(isShuttingDown) ==> isShuttingDown
      ensures View() == After(old(View()), others)
    {
      assert others[..|others|] == others;
      for i := 0 to |others|
        invariant View() == After(old(View()), others[..i])
        invariant Valid() && old(trace) <= trace && Tally(trace, p) == Tally(old(trace), p)
        invariant Undisturbed(p, old(View()), View())
        invariant old(isShuttingDown) ==> isShuttingDown
      {
        OtherActs(others[i], p);
        assert others[..i + 1][..i] == others[..i];
      }
    }

    // The atomic actions of a connection handler

    method Connect(h: HandlerId)
      requires Valid() && h !in handlers
      modifies this
      ensures Valid() && trace == old(trace) + [Event.Connect(h)]
      ensures View() == Set(old(View()), h, LoopTop)
    {
      ghost var before := View();
      handlers := handlers[h := LoopTop];
      Record(Event.Connect(h), before);
    }

    method EnterSelect(h: HandlerId)
      requires Valid() && Is(View(), h, LoopTop)
      modifies this
      ensures Valid() && trace == old(trace) + [Event.EnterSelect(h)]
      ensures View() == Set(old(View()), h, Selecting(false))
    {
      ghost var before := View();
      handlers := handlers[h := Selecting(false)];
      Record(Event.EnterSelect(h), before);
    }

    /** `select!` completes: with the signal, if there is one and it is preferred, or with `accept_bi`. */
    method Select(h: HandlerId, preferSignal: bool, ok: bool) returns (signalled: bool)
      requires Valid() && h in handlers && handlers[h].Selecting?
      modifies this
      ensures Valid() && trace == old(trace) + [if signalled then BreakOnSignal(h) else AcceptStream(h, ok)]
      ensures signalled == (preferSignal && old(handlers)[h].signalled)
      ensures View() == Set(old(View()), h, if signalled then Stopped else Accepted(ok))
    {
      ghost var before := View();
      signalled := preferSignal && handlers[h].signalled;
      handlers := handlers[h := if signalled then Stopped else Accepted(ok)];
      Record(if signalled then BreakOnSignal(h) else AcceptStream(h, ok), before);
    }

    method LoadFlag(h: HandlerId) returns (stop: bool)
      requires Valid() && h in handlers && handlers[h].Accepted?
      modifies this
      ensures Valid() && trace == old(trace) + [CheckFlag(h)]
      ensures stop == isShuttingDown
      ensures View() == Set(old(View()), h, if stop then Stopped else Cleared(old(handlers)[h].ok))
    {
      ghost var before := View();
      stop := isShuttingDown;
      handlers := handlers[h := if stop then Stopped else Cleared(handlers[h].ok)];
      Record(CheckFlag(h), before);
    }

    /** Takes a guard and spawns the stream task that keeps it. */
    method SpawnTask(h: HandlerId, g: T.GuardId)
      requires Valid() && Is(View(), h, Cleared(true)) && g !in tracker.live + tracker.pending
      modifies this, tracker
      ensures Valid() && trace == old(trace) + [Spawn(h, g)]
      ensures Some(View()) == Step(old(View()), Spawn(h, g))
    {
      ghost var before := View();
      tracker.TakeGuard(g);
      handlers := handlers[h := LoopTop];
      Record(Spawn(h, g), before);
    }

    method StopOnError(h: HandlerId)
      requires Valid() && Is(View(), h, Cleared(false))
      modifies this
      ensures Valid() && trace == old(trace) + [BreakOnError(h)]
      ensures View() == Set(old(View()), h, Stopped)
    {
      ghost var before := View();
      handlers := handlers[h := Stopped];
      Record(BreakOnError(h), before);
    }

    /** The number of tasks h has spawned. */
    ghost function Spawned(h: HandlerId): nat
      reads this
    {
      Tally(trace, TheHandler(h))
    }

    ghost function Loads(c: CallerId): nat
      reads this
    {
      Tally(trace, TheCaller(c))
    }

    /** `connection_handler`, one iteration of its loop after the other.  Each iteration but the one that
        ends the loop spawns one task; the loop ends because `accept_bi` failed or shutdown has begun, and
        once it has begun the next iteration is the last. */
    method ConnectionHandler(h: HandlerId, iterations: seq<Iteration>) returns (ended: bool, spawned: nat)
      requires Valid() && h !in handlers
      requires forall it <- iterations :: it.ByOthers(TheHandler(h))
      modifies this, tracker
      ensures Valid() && old(trace) <= trace
      ensures Is(View(), h, if ended then Stopped else LoopTop)
      ensures Spawned(h) == old(Spawned(h)) + spawned
      ensures spawned <= |iterations| && forall i :: 0 <= i < spawned ==> iterations[i].ok
      ensures ended <==> spawned < |iterations|
      ensures ended ==> isShuttingDown || !iterations[spawned].ok
      ensures old(isShuttingDown) ==> spawned == 0
    {
      TallyAppend(trace, Event.Connect(h), TheHandler(h));
      Connect(h);
      spawned := 0;
      while spawned < |iterations|
        invariant Valid() && old(trace) <= trace && Is(View(), h, LoopTop)
        invariant spawned <= |iterations| && Spawned(h) == old(Spawned(h)) + spawned
        invariant forall i :: 0 <= i < spawned ==> iterations[i].ok
        invariant old(isShuttingDown) ==> isShuttingDown && spawned == 0
      {
        ended := Iterate(h, iterations[spawned]);
        if ended {
          return;
        }
        spawned := spawned + 1;
      }
      ended := false;
    }

    method Iterate(h: HandlerId, it: Iteration) returns (ended: bool)
      requires Valid() && Is(View(), h, LoopTop) && it.ByOthers(TheHandler(h))
      modifies this, tracker
      ensures Valid() && old(trace) <= trace
      ensures Is(View(), h, if ended then Stopped else LoopTop)
      ensures Spawned(h) == old(Spawned(h)) + if ended then 0 else 1
      ensures ended <==> LastIteration(old(View()), h, it)
      ensures old(isShuttingDown) || !it.ok ==> ended
      ensures ended ==> isShuttingDown || !it.ok
      ensures old(isShuttingDown) ==> isShuttingDown
    {
      hide Run, Step, Tally, After, Selected;
      ended := SelectNext(h, it);
      if !ended {
        ended := HandleAccepted(h, it);
      }
    }

    /** From the top of the loop through `select!`. */
    method SelectNext(h: HandlerId, it: Iteration) returns (signalled: bool)
      requires Valid() && Is(View(), h, LoopTop) && it.ByOthers(TheHandler(h))
      modifies this, tracker
      ensures Valid() && old(trace) <= trace && Spawned(h) == old(Spawned(h))
      ensures Is(View(), h, if signalled then Stopped else Accepted(it.ok))
      ensures signalled || old(isShuttingDown) ==> isShuttingDown
      ensures var s := Selected(old(View()), h, it);
              && signalled == (it.preferSignal && Is(s, h, Selecting(true)))
              && View() == Set(s, h, if signalled then Stopped else Accepted(it.ok))
    {
      hide Run, Step, Tally, After;
      Interfere(it.beforeSelect, TheHandler(h));
      TallyAppend(trace, Event.EnterSelect(h), TheHandler(h));
      EnterSelect(h);
      Interfere(it.inSelect, TheHandler(h));
      SignalMeansShutdown(trace, h);
      ghost var before := trace;
      signalled := Select(h, it.preferSignal, it.ok);
      TallyAppend(before, trace[|trace| - 1], TheHandler(h));
    }

    /** What follows a result of `accept_bi`. */
    method HandleAccepted(h: HandlerId, it: Iteration) returns (ended: bool)
      requires Valid() && Is(View(), h, Accepted(it.ok)) && it.ByOthers(TheHandler(h))
      modifies this, tracker
      ensures Valid() && old(trace) <= trace
      ensures Is(View(), h, if ended then Stopped else LoopTop)
      ensures Spawned(h) == old(Spawned(h)) + if ended then 0 else 1
      ensures old(isShuttingDown) || !it.ok ==> ended
      ensures ended ==> isShuttingDown || !it.ok
      ensures old(isShuttingDown) ==> isShuttingDown
      ensures var s := After(old(View()), it.beforeCheck);
              && (ended <==> s.isShuttingDown || !it.ok)
              && (s.isShuttingDown ==> View() == Set(s, h, Stopped))
              && var u := After(Set(s, h, Cleared(it.ok)), it.beforeMatch);
                 && (!s.isShuttingDown && !it.ok ==> View() == Set(u, h, Stopped))
                 && (!s.isShuttingDown && it.ok ==> exists g :: Some(View()) == Step(u, Spawn(h, g)))
    {
      hide Run, Tally, After;
      Interfere(it.beforeCheck, TheHandler(h));
      TallyAppend(trace, CheckFlag(h), TheHandler(h));
      var stop := LoadFlag(h);
      if stop {
        return true;
      }
      Interfere(it.beforeMatch, TheHandler(h));
      if it.ok {
        ghost var unused := FreshGuard(tracker.live + tracker.pending);
        var g: T.GuardId :| g !in tracker.live + tracker.pending;
        TallyAppend(trace, Spawn(h, g), TheHandler(h));
        SpawnTask(h, g);
        return false;
      }
      TallyAppend(trace, BreakOnError(h), TheHandler(h));
      StopOnError(h);
      return true;
    }

    // The atomic actions of a call of `shutdown`

    method RaiseFlag(c: CallerId)
      requires Valid() && c !in callers
      modifies this
      ensures Valid() && trace == old(trace) + [StoreFlag(c)] && View() == Goes(old(View()), StoreFlag(c))
      ensures View() == old(View()).(isShuttingDown := true, callers := old(callers)[c := FlagStored])
    {
      ghost var before := View();
      isShuttingDown := true;
      callers := callers[c := FlagStored];
      Record(StoreFlag(c), before);
    }

    method Signal(c: CallerId)
      requires Valid() && Calling(View(), c, FlagStored)
      modifies this
      ensures Valid() && trace == old(trace) + [SignalHandlers(c)] && View() == Goes(old(View()), SignalHandlers(c))
      ensures View() == old(View()).(handlers := SignalAll(old(handlers)), callers := old(callers)[c := Signalled])
    {
      ghost var before := View();
      handlers := SignalAll(handlers);
      callers := callers[c := Signalled];
      Record(SignalHandlers(c), before);
    }

    method StartWaiting(c: CallerId)
      requires Valid() && Calling(View(), c, Signalled) && c !in tracker.waiters
      modifies this, tracker
      ensures Valid() && trace == old(trace) + [BeginWait(c)] && View() == Goes(old(View()), BeginWait(c))
      ensures Calling(View(), c, Waiting) && T.At(tracker.View(), c, T.Entered)
      ensures isShuttingDown == old(isShuttingDown)
    {
      ghost var before := View();
      tracker.Enter(c);
      callers := callers[c := Waiting];
      Record(BeginWait(c), before);
    }

    /** One load of the counter. */
    method LoadCount(c: CallerId) returns (zero: bool)
      requires Valid() && Calling(View(), c, Waiting)
      requires T.At(tracker.View(), c, T.Entered) || T.At(tracker.View(), c, T.Looping)
      modifies this, tracker
      ensures Valid() && trace == old(trace) + [Wait(T.ReadCount(c))]
      ensures View() == Goes(old(View()), Wait(T.ReadCount(c)))
      ensures isShuttingDown == old(isShuttingDown) && callers == old(callers)
      ensures zero == (old(tracker.activeTasks) == 0) && tracker.activeTasks == old(tracker.activeTasks)
      ensures zero ==> ReturnedOk(View(), c)
      ensures !zero ==> T.At(tracker.View(), c, if old(tracker.waiters)[c] == T.Entered then T.Looping else T.SawBusy)
    {
      ghost var before := View();
      tracker.ReadCount(c);
      zero := tracker.activeTasks == 0;
      Record(Wait(T.ReadCount(c)), before);
    }

    method BeginSleep(c: CallerId)
      requires Valid() && Calling(View(), c, Waiting) && T.At(tracker.View(), c, T.SawBusy)
      modifies this, tracker
      ensures Valid() && trace == old(trace) + [Wait(T.Register(c))] && View() == Goes(old(View()), Wait(T.Register(c)))
      ensures isShuttingDown == old(isShuttingDown) && callers == old(callers)
      ensures T.At(tracker.View(), c, T.Registered)
    {
      ghost var before := View();
      tracker.Register(c);
      Record(Wait(T.Register(c)), before);
    }

    /** The sleep ends: woken in time, or not. */
    method EndSleep(c: CallerId, expired: bool)
      requires Valid() && Calling(View(), c, Waiting)
      requires T.At(tracker.View(), c, T.Woken) || (expired && T.At(tracker.View(), c, T.Registered))
      modifies this, tracker
      ensures Valid() && trace == old(trace) + [Wait(if expired then T.TimeOut(c) else T.Resume(c))]
      ensures View() == Goes(old(View()), Wait(if expired then T.TimeOut(c) else T.Resume(c)))
      ensures isShuttingDown == old(isShuttingDown) && callers == old(callers)
      ensures T.At(tracker.View(), c, if expired then T.TimedOut else T.Looping)
    {
      ghost var before := View();
      if expired {
        tracker.TimeOut(c);
      } else {
        tracker.Resume(c);
      }
      Record(Wait(if expired then T.TimeOut(c) else T.Resume(c)), before);
    }

    method CountRemaining(c: CallerId) returns (remaining: int)
      requires Valid() && Calling(View(), c, Waiting) && T.At(tracker.View(), c, T.TimedOut)
      modifies this
      ensures Valid() && trace == old(trace) + [ReadRemaining(c)] && View() == Goes(old(View()), ReadRemaining(c))
      ensures remaining == tracker.activeTasks
      ensures Calling(View(), c, Failed(remaining)) && isShuttingDown == old(isShuttingDown)
    {
      ghost var before := View();
      remaining := tracker.activeTasks;
      callers := callers[c := Failed(remaining)];
      Record(ReadRemaining(c), before);
    }

    /** `wait_for_completion`: what it comes to, turn by turn.  In particular it runs out of time only in a turn
        whose time is up, and returns Ok only on a load of 0. */
    method WaitForCompletion(c: CallerId, first: seq<Event>, rounds: seq<Round>) returns (r: Waited)
      requires Valid() && Calling(View(), c, Waiting) && T.At(tracker.View(), c, T.Entered)
      requires Foreign(TheCaller(c), first) && forall it <- rounds :: it.ByOthers(TheCaller(c))
      modifies this, tracker
      ensures Valid() && old(trace) <= trace && Calling(View(), c, Waiting)
      ensures old(isShuttingDown) ==> isShuttingDown
      ensures (r, View()) == WaitOutcome(old(View()), c, first, rounds)
      ensures r.AllDone? ==> JustReadZero(c, |old(trace)|)
      ensures r.TimeUp? ==>
                T.At(tracker.View(), c, T.TimedOut) && exists i :: 0 <= i < |rounds| && rounds[i].expired
      ensures r.StillWaiting? ==>
                || T.At(tracker.View(), c, T.Registered)
                || (T.At(tracker.View(), c, T.Looping) && Loads(c) == old(Loads(c)) + 1 + |rounds|)
    {
      hide Run, Step, Acts, Tally, After, Goes;
      Interfere(first, TheCaller(c));
      TallyAppend(trace, Wait(T.ReadCount(c)), TheCaller(c));
      var zero := LoadCount(c);
      if zero {
        return AllDone;
      }
      ghost var start := View();
      TimeUpOnlyIfExpired(start, c, rounds);
      hide OneRound;
      assert rounds[0..] == rounds;
      for i := 0 to |rounds|
        invariant Valid() && old(trace) <= trace && Calling(View(), c, Waiting) && T.At(tracker.View(), c, T.Looping)
        invariant old(isShuttingDown) ==> isShuttingDown
        invariant Loads(c) == old(Loads(c)) + 1 + i
        invariant Rounds(start, c, rounds) == Rounds(View(), c, rounds[i..])
      {
        assert rounds[i..][0] == rounds[i] && rounds[i..][1..] == rounds[i + 1..];
        r := WaitRound(c, rounds[i]);
        if !r.StillWaiting? || !T.At(tracker.View(), c, T.Looping) {
          return;
        }
      }
      r := StillWaiting;
    }

    /** The last event is c's load of a count of 0, and it is not one of the first n. */
    ghost predicate JustReadZero(c: CallerId, n: nat)
      reads this, tracker
    {
      && n < |trace| && trace[|trace| - 1] == Wait(T.ReadCount(c))
      && ReturnedOk(View(), c) && tracker.activeTasks == 0
    }

    method WaitRound(c: CallerId, it: Round) returns (r: Waited)
      requires Valid() && Calling(View(), c, Waiting) && T.At(tracker.View(), c, T.Looping)
      requires it.ByOthers(TheCaller(c))
      modifies this, tracker
      ensures Valid() && old(trace) <= trace && Calling(View(), c, Waiting)
      ensures old(isShuttingDown) ==> isShuttingDown
      ensures (r, View()) == OneRound(old(View()), c, it)
      ensures r.AllDone? ==> JustReadZero(c, |old(trace)|)
      ensures r.TimeUp? ==> T.At(tracker.View(), c, T.TimedOut)
      ensures r.StillWaiting? ==> T.At(tracker.View(), c, T.Looping) || T.At(tracker.View(), c, T.Registered)
      ensures Loads(c) == old(Loads(c)) + 1
    {
      hide Run, Step, Acts, Tally, After, Goes, Slept;
      Interfere(it.beforeLoad, TheCaller(c));
      TallyAppend(trace, Wait(T.ReadCount(c)), TheCaller(c));
      var zero := LoadCount(c);
      if zero {
        return AllDone;
      }
      r := Sleep(c, it);
    }

    /** `notified().await` inside `timeout`: out of time exactly if the time is up; otherwise asleep still, or
        round again if it was woken. */
    method Sleep(c: CallerId, it: Round) returns (r: Waited)
      requires Valid() && Calling(View(), c, Waiting) && T.At(tracker.View(), c, T.SawBusy)
      requires it.ByOthers(TheCaller(c))
      modifies this, tracker
      ensures Valid() && old(trace) <= trace && Calling(View(), c, Waiting)
      ensures old(isShuttingDown) ==> isShuttingDown
      ensures (r, View()) == Slept(old(View()), c, it)
      ensures r == if it.expired then TimeUp else StillWaiting
      ensures T.At(tracker.View(), c, T.TimedOut) <==> it.expired
      ensures !it.expired ==> T.At(tracker.View(), c, T.Looping) || T.At(tracker.View(), c, T.Registered)
      ensures Loads(c) == old(Loads(c))
    {
      hide Run, Step, Acts, Tally, After, Goes;
      Interfere(it.beforeSleep, TheCaller(c));
      TallyAppend(trace, Wait(T.Register(c)), TheCaller(c));
      BeginSleep(c);
      Interfere(it.asleep, TheCaller(c));
      TallyAppend(trace, Wait(if it.expired then T.TimeOut(c) else T.Resume(c)), TheCaller(c));
      r := if it.expired then TimeUp else StillWaiting;
      if tracker.waiters[c] == T.Registered && !it.expired {
        return;
      }
      EndSleep(c, it.expired);
    }

    /** From the store of the flag to the call of `wait_for_completion`. */
    method Announce(c: CallerId, beforeSignal: seq<Event>, beforeWait: seq<Event>)
      requires Valid() && c !in callers && c !in tracker.waiters
      requires Foreign(TheCaller(c), beforeSignal) && Foreign(TheCaller(c), beforeWait)
      modifies this, tracker
      ensures Valid() && isShuttingDown && old(trace) + [StoreFlag(c)] <= trace
      ensures Calling(View(), c, Waiting) && T.At(tracker.View(), c, T.Entered)
      ensures View() == Announced(old(View()), c, beforeSignal, beforeWait)
    {
      hide Run, Step, Acts, Tally, After, Goes;
      RaiseFlag(c);
      Interfere(beforeSignal, TheCaller(c));
      Signal(c);
      Interfere(beforeWait, TheCaller(c));
      StartWaiting(c);
    }

    /** `shutdown`: Ok comes with a load of 0 after the store of the flag, an error - only when the time of some
        turn of the wait is up - with the number of tasks left. */
    method Shutdown(c: CallerId, beforeSignal: seq<Event>, beforeWait: seq<Event>, beforeLoad: seq<Event>,
                    rounds: seq<Round>, beforeCount: seq<Event>)
      returns (r: Answer)
      requires Valid() && c !in callers && c !in tracker.waiters
      requires Foreign(TheCaller(c), beforeSignal) && Foreign(TheCaller(c), beforeWait)
      requires Foreign(TheCaller(c), beforeLoad) && Foreign(TheCaller(c), beforeCount)
      requires forall it <- rounds :: it.ByOthers(TheCaller(c))
      modifies this, tracker
      ensures Valid() && isShuttingDown && old(trace) + [StoreFlag(c)] <= trace
      ensures (r, View()) == ShutdownOutcome(old(View()), c, beforeSignal, beforeWait, beforeLoad, rounds, beforeCount)
      ensures r.Pending? ==>
                && Calling(View(), c, Waiting)
                && (T.At(tracker.View(), c, T.Registered) || T.At(tracker.View(), c, T.Looping))
      ensures r.AllFinished? ==>
                ReturnedOk(View(), c) && StoredThenReadZero(trace, c, |old(trace)|, |trace| - 1)
      ensures r.Timeout? ==>
                && Calling(View(), c, Failed(r.remainingTasks)) && r.remainingTasks == tracker.activeTasks
                && exists i :: 0 <= i < |rounds| && rounds[i].expired
    {
      hide Run, Step, Acts, Tally, Round.ByOthers, After, Goes, WaitOutcome, Announced;
      Announce(c, beforeSignal, beforeWait);
      var waited := WaitForCompletion(c, beforeLoad, rounds);
      match waited {
        case StillWaiting => r := Pending;
        case AllDone =>
          ReadZeroIsInTheRun(trace, View(), c);
          r := AllFinished;
        case TimeUp =>
          Interfere(beforeCount, TheCaller(c));
          var remaining := CountRemaining(c);
          r := Timeout(remaining);
      }
    }
  }

  lemma ReadZeroIsInTheRun(es: seq<Event>, s: Server, c: CallerId)
    requires Run(INIT, es) == Some(s) && es != [] && es[|es| - 1] == Wait(T.ReadCount(c)) && s.tracker.count == 0
    ensures var before := Run(INIT, es[..|es| - 1]);
            before.Some? && before.value.tracker.count == 0
  {
  }
}
