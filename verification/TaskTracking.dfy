/**
 The task counter behind graceful shutdown (zel_core/src/protocol/shutdown.rs).

 Every atomic action is one event: `fetch_add`, `fetch_sub`, `notify_waiters`, each load of the
 counter, each registration with the `Notify`.  A run is any interleaving of events, over any number
 of guards and waiters.  Atomics are taken to be sequentially consistent.

 `tokio::sync::Notify` is modelled by its contract: `notify_waiters` wakes exactly the `notified()`
 futures that exist at that moment and leaves no permit behind.
 */
module TaskTracking {
  import opened Wrappers
  import opened Sums

  type GuardId = nat
  type WaiterId = nat

  /** Where one call of `wait_for_completion` stands. */
  datatype Phase =
    | Entered     // before the fast-path load
    | Looping     // at the top of the loop, before the load
    | SawBusy     // loaded a count other than 0, `notified()` not yet created
    | Registered  // awaiting `notified()`
    | Woken       // woken, not yet resumed
    | Completed   // returned Ok
    | TimedOut    // returned Err

  /** `live` are the guards not yet dropped; `pending` are the guards whose `fetch_sub` returned 1 and
      whose `notify_waiters` is still to come. */
  datatype Tracker = Tracker(count: int, live: set<GuardId>, pending: set<GuardId>, waiters: map<WaiterId, Phase>)

  const INIT := Tracker(0, {}, {}, map[])

  datatype Event =
    | Increment(g: GuardId)
    | FetchSub(g: GuardId)
    | NotifyWaiters(g: GuardId)
    | Enter(w: WaiterId)
    | ReadCount(w: WaiterId)
    | Register(w: WaiterId)
    | Resume(w: WaiterId)
    | TimeOut(w: WaiterId)

  predicate At(s: Tracker, w: WaiterId, p: Phase) {
    w in s.waiters && s.waiters[w] == p
  }

  function WakeAll(m: map<WaiterId, Phase>): map<WaiterId, Phase> {
    map w | w in m :: if m[w] == Registered then Woken else m[w]
  }

  function Move(s: Tracker, w: WaiterId, p: Phase): Tracker {
    s.(waiters := s.waiters[w := p])
  }

  /** The effect of one event, or None when it cannot happen.  A wait times out only while it is
      suspended on `notified()`, as `timeout` polls the inner future first; a wake-up that comes between
      that poll and the clock's is lost on it. */
  function Step(s: Tracker, e: Event): Option<Tracker> {
    match e
    case Increment(g) =>
      if g in s.live + s.pending then None
      else Some(s.(count := s.count + 1, live := s.live + {g}))
    case FetchSub(g) =>
      if g !in s.live then None
      else Some(s.(count := s.count - 1, live := s.live - {g},
                   pending := if s.count == 1 then s.pending + {g} else s.pending))
    case NotifyWaiters(g) =>
      if g !in s.pending then None
      else Some(s.(pending := s.pending - {g}, waiters := WakeAll(s.waiters)))
    case Enter(w) =>
      if w in s.waiters then None else Some(Move(s, w, Entered))
    case ReadCount(w) =>
      if At(s, w, Entered) then Some(Move(s, w, if s.count == 0 then Completed else Looping))
      else if At(s, w, Looping) then Some(Move(s, w, if s.count == 0 then Completed else SawBusy))
      else None
    case Register(w) =>
      if At(s, w, SawBusy) then Some(Move(s, w, Registered)) else None
    case Resume(w) =>
      if At(s, w, Woken) then Some(Move(s, w, Looping)) else None
    case TimeOut(w) =>
      if At(s, w, Registered) || At(s, w, Woken) then Some(Move(s, w, TimedOut)) else None
  }

  function Run(s: Tracker, es: seq<Event>): Option<Tracker> {
    if es == [] then Some(s)
    else
      var p := Run(s, es[..|es| - 1]);
      if p.None? then None else Step(p.value, es[|es| - 1])
  }

  lemma RunExtended(s: Tracker, es: seq<Event>, e: Event)
    ensures Run(s, es + [e]) == if Run(s, es).None? then None else Step(Run(s, es).value, e)
  {
    assert (es + [e])[..|es|] == es;
  }

  // ---------------------------------------------------------------------------------------------
  // The counter counts the live guards
  // ---------------------------------------------------------------------------------------------

  ghost predicate Inv(s: Tracker) {
    && s.count == |s.live|
    && s.live !! s.pending
  }

  lemma GuardsAfter(s: Tracker, e: Event)
    requires Step(s, e).Some?
    ensures var t := Step(s, e).value;
            match e
            case Increment(g) =>
              g !in s.live + s.pending && t.live == s.live + {g} && t.count == s.count + 1 && t.pending == s.pending
            case FetchSub(g) =>
              && g in s.live && t.live == s.live - {g} && t.count == s.count - 1
              && t.pending == s.pending + if s.count == 1 then {g} else {}
            case NotifyWaiters(g) => t.live == s.live && t.count == s.count && t.pending == s.pending - {g}
            case _ => t.live == s.live && t.count == s.count && t.pending == s.pending
  {
  }

  lemma OneLess(live: set<GuardId>, g: GuardId)
    requires g in live
    ensures |live - {g}| == |live| - 1
  {
    assert live == (live - {g}) + {g};
  }

  lemma StepKeepsInv(s: Tracker, e: Event)
    requires Inv(s) && Step(s, e).Some?
    ensures Inv(Step(s, e).value)
  {
    hide Step;
    GuardsAfter(s, e);
    if e.FetchSub? {
      OneLess(s.live, e.g);
    }
  }

  lemma {:induction false} RunKeepsInv(s: Tracker, es: seq<Event>)
    requires Inv(s) && Run(s, es).Some?
    ensures Inv(Run(s, es).value)
  {
    if es != [] {
      RunKeepsInv(s, es[..|es| - 1]);
      StepKeepsInv(Run(s, es[..|es| - 1]).value, es[|es| - 1]);
    }
  }

  // ---------------------------------------------------------------------------------------------
  // When a waiter misses the last wake-up
  // ---------------------------------------------------------------------------------------------

  /** A kind of event to look for in a run. */
  datatype Mark =
    | AnyDrop
    | AnyNotify
    | NotifyBy(g: GuardId)
    | ReadBy(w: WaiterId)
    | RegisterBy(w: WaiterId)

  predicate Hits(m: Mark, e: Event) {
    match m
    case AnyDrop => e.FetchSub?
    case AnyNotify => e.NotifyWaiters?
    case NotifyBy(g) => e == NotifyWaiters(g)
    case ReadBy(w) => e == ReadCount(w)
    case RegisterBy(w) => e == Register(w)
  }

  /** The time (1, 2, ...) of the last event of a kind; 0 when there is none. */
  function Last(es: seq<Event>, m: Mark): (t: nat)
    ensures t <= |es|
    ensures t > 0 ==> Hits(m, es[t - 1])
  {
    if es == [] then 0
    else if Hits(m, es[|es| - 1]) then |es|
    else Last(es[..|es| - 1], m)
  }

  /** The drop that emptied the tracker still owes its notification, or has given it since. */
  ghost predicate LastDropNotifies(es: seq<Event>, s: Tracker) {
    var drop := Last(es, AnyDrop);
    s.count == 0 && 0 < drop ==>
      es[drop - 1].g in s.pending || drop < Last(es, NotifyBy(es[drop - 1].g)) <= Last(es, AnyNotify)
  }

  /** A waiter that is going to wait saw a count that only a later drop can have brought to 0. */
  ghost predicate SawBeforeDrop(es: seq<Event>, s: Tracker, w: WaiterId) {
    var read := Last(es, ReadBy(w));
    At(s, w, SawBusy) || At(s, w, Registered) ==> 0 < read && (s.count == 0 ==> read < Last(es, AnyDrop))
  }

  /** A waiter sleeps exactly as long as no notification follows its registration. */
  ghost predicate SleepsSinceNotify(es: seq<Event>, s: Tracker, w: WaiterId) {
    var registered := Last(es, RegisterBy(w));
    && (At(s, w, Registered) ==> Last(es, ReadBy(w)) < registered && Last(es, AnyNotify) < registered)
    && (Last(es, AnyNotify) < registered ==> At(s, w, Registered) || At(s, w, TimedOut))
  }

  ghost predicate History(es: seq<Event>, s: Tracker, w: WaiterId) {
    Inv(s) && LastDropNotifies(es, s) && SawBeforeDrop(es, s, w) && SleepsSinceNotify(es, s, w)
  }

  lemma LastOfExtended(es: seq<Event>, e: Event, m: Mark)
    ensures Last(es + [e], m) == if Hits(m, e) then |es| + 1 else Last(es, m)
  {
    assert (es + [e])[..|es|] == es;
  }

  lemma LastDropNotifiesStep(es: seq<Event>, s: Tracker, e: Event)
    requires Inv(s) && LastDropNotifies(es, s) && Step(s, e).Some?
    ensures LastDropNotifies(es + [e], Step(s, e).value)
  {
    hide Last, Step;
    GuardsAfter(s, e);
    LastOfExtended(es, e, AnyDrop);
    LastOfExtended(es, e, AnyNotify);
    var drop := Last(es + [e], AnyDrop);
    if 0 < drop {
      LastOfExtended(es, e, NotifyBy((es + [e])[drop - 1].g));
    }
  }

  lemma BusyStep(s: Tracker, e: Event, w: WaiterId)
    requires 0 <= s.count && Step(s, e).Some?
    ensures var t := Step(s, e).value;
            && (At(t, w, SawBusy) || At(t, w, Registered) ==>
                  || (e == ReadCount(w) && t.count != 0)
                  || (e != ReadCount(w) && (At(s, w, SawBusy) || At(s, w, Registered))))
            && (t.count == 0 ==> s.count == 0 || e.FetchSub?)
  {
  }

  lemma SawBeforeDropStep(es: seq<Event>, s: Tracker, e: Event, w: WaiterId)
    requires Inv(s) && SawBeforeDrop(es, s, w) && Step(s, e).Some?
    ensures SawBeforeDrop(es + [e], Step(s, e).value, w)
  {
    hide Last;
    BusyStep(s, e, w);
    hide Step, At;
    LastOfExtended(es, e, AnyDrop);
    LastOfExtended(es, e, ReadBy(w));
  }

  lemma SleepersStep(s: Tracker, e: Event, w: WaiterId)
    requires Step(s, e).Some?
    ensures At(Step(s, e).value, w, Registered) <==>
            e == Register(w) || (At(s, w, Registered) && !e.NotifyWaiters? && e != TimeOut(w))
    ensures At(s, w, TimedOut) || e == TimeOut(w) ==> At(Step(s, e).value, w, TimedOut)
    ensures At(s, w, Registered) ==> e != ReadCount(w) && e != Register(w)
  {
  }

  lemma SleepsSinceNotifyStep(es: seq<Event>, s: Tracker, e: Event, w: WaiterId)
    requires SleepsSinceNotify(es, s, w) && Step(s, e).Some?
    ensures SleepsSinceNotify(es + [e], Step(s, e).value, w)
  {
    hide Last;
    SleepersStep(s, e, w);
    LastOfExtended(es, e, AnyNotify);
    LastOfExtended(es, e, ReadBy(w));
    LastOfExtended(es, e, RegisterBy(w));
  }

  lemma HistoryAtStart(w: WaiterId)
    ensures History([], INIT, w)
  {
  }

  lemma {:induction false} HistoryHolds(es: seq<Event>, w: WaiterId)
    requires Run(INIT, es).Some?
    ensures History(es, Run(INIT, es).value, w)
  {
    hide Step, Last, Inv, LastDropNotifies, SawBeforeDrop, SleepsSinceNotify;
    if es == [] {
      HistoryAtStart(w);
    } else {
      var es0, e := es[..|es| - 1], es[|es| - 1];
      var s0 := Run(INIT, es0).value;
      HistoryHolds(es0, w);
      StepKeepsInv(s0, e);
      LastDropNotifiesStep(es0, s0, e);
      SawBeforeDropStep(es0, s0, e, w);
      SleepsSinceNotifyStep(es0, s0, e, w);
      assert es == es0 + [e];
    }
  }

  /**
   A drained tracker with no notification outstanding leaves a waiter asleep exactly when the last
   drop and the last notification both fell between that waiter's load and its registration (and it
   has not timed out).
   */
  lemma LostWakeupExactly(es: seq<Event>, w: WaiterId)
    requires Run(INIT, es).Some?
    requires Run(INIT, es).value.live == {} && Run(INIT, es).value.pending == {}
    ensures At(Run(INIT, es).value, w, Registered) <==>
            && !At(Run(INIT, es).value, w, TimedOut)
            && 0 < Last(es, ReadBy(w)) < Last(es, AnyDrop) < Last(es, AnyNotify) < Last(es, RegisterBy(w))
  {
    HistoryHolds(es, w);
  }

  // ---------------------------------------------------------------------------------------------
  // Draining: what happens once no guard is left and no new one is taken
  // ---------------------------------------------------------------------------------------------

  /** Events of a tracker that takes no new guard and no new waiter, and in which no wait times out. */
  predicate Draining(e: Event) {
    e.NotifyWaiters? || e.ReadCount? || e.Register? || e.Resume?
  }

  ghost predicate AllDraining(es: seq<Event>) {
    forall e <- es :: Draining(e)
  }

  /** How many draining events of its own a waiter has left, at most. */
  function Rank(p: Phase): nat {
    match p
    case SawBusy => 4
    case Registered => 3
    case Woken => 2
    case Looping => 1
    case Entered => 1
    case _ => 0
  }

  function RankOf(s: Tracker, w: WaiterId): nat {
    if w in s.waiters then Rank(s.waiters[w]) else 0
  }

  /** How many draining events are left at most: one for each notification owed, and those of the waiters. */
  ghost function EventsLeft(s: Tracker): nat {
    |s.pending| + Sum(s.waiters, Rank)
  }

  /** The waiters that a drained tracker is certain to wake: all but those between load and
      registration, and those that registered after the last notification. */
  predicate WillReturnOk(s: Tracker, w: WaiterId) {
    At(s, w, Entered) || At(s, w, Looping) || At(s, w, Woken) || At(s, w, Completed) ||
    (At(s, w, Registered) && s.pending != {})
  }

  function NotifiesIn(es: seq<Event>): nat {
    if es == [] then 0
    else NotifiesIn(es[..|es| - 1]) + if es[|es| - 1].NotifyWaiters? then 1 else 0
  }

  function StepsOf(es: seq<Event>, w: WaiterId): nat {
    if es == [] then 0
    else
      var e := es[|es| - 1];
      StepsOf(es[..|es| - 1], w) + if e == ReadCount(w) || e == Register(w) || e == Resume(w) then 1 else 0
  }

  lemma OneLessOwed(s: Tracker, g: GuardId)
    requires Step(s, NotifyWaiters(g)).Some?
    ensures EventsLeft(Step(s, NotifyWaiters(g)).value) < EventsLeft(s)
  {
    hide Sum;
    assert s.pending == (s.pending - {g}) + {g};
    SumNotLarger(WakeAll(s.waiters), s.waiters, Rank);
  }

  lemma OneMoveLess(s: Tracker, w: WaiterId, p: Phase)
    requires w in s.waiters && Rank(p) < Rank(s.waiters[w])
    ensures EventsLeft(Move(s, w, p)) < EventsLeft(s)
  {
    hide Sum, Rank;
    SumUpdated(s.waiters, Rank, w, p);
  }

  lemma DrainStep(s: Tracker, e: Event)
    requires Inv(s) && s.live == {} && Draining(e) && Step(s, e).Some?
    ensures Inv(Step(s, e).value) && Step(s, e).value.live == {}
    ensures EventsLeft(Step(s, e).value) < EventsLeft(s)
    ensures |Step(s, e).value.pending| + (if e.NotifyWaiters? then 1 else 0) == |s.pending|
  {
    assert s.count == 0;
    StepKeepsInv(s, e);
    hide EventsLeft, Inv;
    match e {
      case NotifyWaiters(g) => OneLessOwed(s, g);
      case ReadCount(w) => OneMoveLess(s, w, Completed);
      case Register(w) => OneMoveLess(s, w, Registered);
      case Resume(w) => OneMoveLess(s, w, Looping);
    }
  }

  lemma DrainStepOf(s: Tracker, e: Event, w: WaiterId)
    requires s.count == 0 && Draining(e) && Step(s, e).Some?
    ensures var t := Step(s, e).value;
            && RankOf(t, w) + (if e == ReadCount(w) || e == Register(w) || e == Resume(w) then 1 else 0) <= RankOf(s, w)
            && (w in s.waiters ==> w in t.waiters)
            && (WillReturnOk(s, w) ==> WillReturnOk(t, w))
            && (At(s, w, Registered) && s.pending == {} ==> At(t, w, Registered) && t.pending == {})
  {
  }

  /**
   Draining ends: each owed notification is given once, each waiter takes at most as many events as it has
   left, and the whole run no more than that makes together.  While it lasts, a waiter that will return
   Ok stays one, and one already asleep with nothing owed stays asleep.
   */
  lemma {:induction false} DrainRun(s: Tracker, es: seq<Event>, w: WaiterId)
    requires Inv(s) && s.live == {} && AllDraining(es) && Run(s, es).Some?
    ensures var t := Run(s, es).value;
            && Inv(t) && t.live == {}
            && |es| + EventsLeft(t) <= EventsLeft(s)
            && NotifiesIn(es) + |t.pending| == |s.pending|
            && StepsOf(es, w) + RankOf(t, w) <= RankOf(s, w)
            && (w in s.waiters ==> w in t.waiters)
            && (WillReturnOk(s, w) ==> WillReturnOk(t, w))
            && (At(s, w, Registered) && s.pending == {} ==> At(t, w, Registered) && t.pending == {})
  {
    hide EventsLeft;
    if es != [] {
      DrainRun(s, es[..|es| - 1], w);
      hide Step, WillReturnOk, At, RankOf;
      DrainStep(Run(s, es[..|es| - 1]).value, es[|es| - 1]);
      DrainStepOf(Run(s, es[..|es| - 1]).value, es[|es| - 1], w);
    }
  }

  /** In numbers: at most one event for each notification owed and four for each waiter. */
  lemma DrainBound(s: Tracker, es: seq<Event>)
    requires Inv(s) && s.live == {} && AllDraining(es) && Run(s, es).Some?
    ensures |es| <= |s.pending| + 4 * |s.waiters|
  {
    DrainRun(s, es, 0);
    hide Run, Sum, Inv, WillReturnOk, At, RankOf, NotifiesIn, StepsOf;
    assert forall w <- s.waiters :: Rank(s.waiters[w]) <= 4;
    SumAtMost(s.waiters, Rank, 4);
  }

  /** Waiter w has no load, registration or resumption of its own to take. */
  predicate AtRest(s: Tracker, w: WaiterId) {
    !At(s, w, Entered) && !At(s, w, Looping) && !At(s, w, SawBusy) && !At(s, w, Woken)
  }

  lemma NoGuardStep(s: Tracker, e: Event, w: WaiterId)
    requires Inv(s) && s.live == {} && Step(s, e).Some? && !e.Increment? && e != TimeOut(w)
    ensures var t := Step(s, e).value;
            && Inv(t) && t.live == {} && t.pending <= s.pending
            && (WillReturnOk(s, w) ==> WillReturnOk(t, w))
            && (At(s, w, Registered) && s.pending == {} ==> At(t, w, Registered))
  {
    GuardsAfter(s, e);
    StepKeepsInv(s, e);
    assert s.count == 0;
    hide Inv;
  }

  lemma {:induction false} NoGuardRun(s: Tracker, es: seq<Event>, w: WaiterId)
    requires Inv(s) && s.live == {} && Run(s, es).Some?
    requires forall e <- es :: !e.Increment? && e != TimeOut(w)
    ensures var t := Run(s, es).value;
            && Inv(t) && t.live == {} && t.pending <= s.pending
            && (WillReturnOk(s, w) ==> WillReturnOk(t, w))
            && (At(s, w, Registered) && s.pending == {} ==> At(t, w, Registered))
  {
    hide Step, Inv, WillReturnOk, At;
    if es != [] {
      var es0 := es[..|es| - 1];
      assert forall e <- es0 :: e in es;
      NoGuardRun(s, es0, w);
      NoGuardStep(Run(s, es0).value, es[|es| - 1], w);
    }
  }

  /**
   A tracker whose last guard is gone, and anything that can then happen but a new guard: other waiters may
   come, return or time out.  Once nothing is owed and waiter w has no event of its own left, it has returned
   Ok if it was to - unless it timed out meanwhile; and if it was asleep with nothing owed, it still is.
   */
  lemma DrainedTrackerWakesEveryWaiter(s: Tracker, es: seq<Event>, w: WaiterId)
    requires Inv(s) && s.live == {} && Run(s, es).Some?
    requires forall e <- es :: !e.Increment? && e != TimeOut(w)
    requires Run(s, es).value.pending == {} && AtRest(Run(s, es).value, w)
    ensures WillReturnOk(s, w) ==> At(Run(s, es).value, w, Completed)
    ensures At(s, w, Registered) && s.pending == {} ==> At(Run(s, es).value, w, Registered)
  {
    NoGuardRun(s, es, w);
  }

  /** A waiter still between load and registration can lose the race: if every owed notification comes
      first, it registers with nobody left to wake it. */
  lemma LosingTheRace(s: Tracker, w: WaiterId) returns (es: seq<Event>)
    requires Inv(s) && s.live == {} && At(s, w, SawBusy)
    ensures AllDraining(es) && Run(s, es).Some?
    ensures At(Run(s, es).value, w, Registered) && Run(s, es).value.pending == {}
    decreases |s.pending|
  {
    if s.pending == {} {
      RunExtended(s, [], Register(w));
      es := [] + [Register(w)];
    } else {
      var g :| g in s.pending;
      var t := Step(s, NotifyWaiters(g)).value;
      var rest := LosingTheRace(t, w);
      es := [NotifyWaiters(g)] + rest;
      RunFromSecond(s, NotifyWaiters(g), rest);
    }
  }

  lemma {:induction false} RunFromSecond(s: Tracker, e: Event, es: seq<Event>)
    requires Step(s, e).Some?
    ensures Run(s, [e] + es) == Run(Step(s, e).value, es)
  {
    var all := [e] + es;
    if es == [] {
      assert all[..0] == [] && Run(s, all[..0]) == Some(s);
    } else {
      assert all[..|all| - 1] == [e] + es[..|es| - 1];
      RunFromSecond(s, e, es[..|es| - 1]);
    }
  }

  /** Until a new guard is taken, a waiter asleep in a drained tracker can only time out: the error it
      then reports finds no task left. */
  lemma {:induction false} AsleepUntilTimeout(s: Tracker, es: seq<Event>, w: WaiterId)
    requires Inv(s) && s.live == {} && s.pending == {} && (At(s, w, Registered) || At(s, w, TimedOut))
    requires Run(s, es).Some? && forall e <- es :: !e.Increment?
    ensures var t := Run(s, es).value;
            t.count == 0 && Inv(t) && t.live == {} && t.pending == {} && (At(t, w, Registered) || At(t, w, TimedOut))
  {
    if es != [] {
      AsleepUntilTimeout(s, es[..|es| - 1], w);
      StepKeepsInv(Run(s, es[..|es| - 1]).value, es[|es| - 1]);
    }
  }

  /** The exceptional run itself: one guard, one waiter, the drop and its notification between the
      waiter's load and its registration. */
  lemma LostWakeupRun() returns (es: seq<Event>)
    ensures Run(INIT, es).Some?
    ensures var s := Run(INIT, es).value; s.live == {} && s.pending == {} && At(s, 0, Registered)
  {
    es := [];
    RunExtended(INIT, es, Increment(0));
    es := es + [Increment(0)];
    RunExtended(INIT, es, Enter(0));
    es := es + [Enter(0)];
    RunExtended(INIT, es, ReadCount(0));
    es := es + [ReadCount(0)];
    RunExtended(INIT, es, ReadCount(0));
    es := es + [ReadCount(0)];
    RunExtended(INIT, es, FetchSub(0));
    es := es + [FetchSub(0)];
    RunExtended(INIT, es, NotifyWaiters(0));
    es := es + [NotifyWaiters(0)];
    RunExtended(INIT, es, Register(0));
    es := es + [Register(0)];
  }

  // ---------------------------------------------------------------------------------------------
  // The tracker as an object
  // ---------------------------------------------------------------------------------------------

  /** `TaskTracker`: the counter and the `Notify`.  Each method is one atomic action and hence one
      event; `live` and `pending` stand for the guard objects, not yet dropped or half dropped. */
  class TaskTracker {
    var activeTasks: int
    var waiters: map<WaiterId, Phase>
    var live: set<GuardId>
    var pending: set<GuardId>

    function View(): Tracker
      reads this
    {
      Tracker(activeTasks, live, pending, waiters)
    }

    constructor ()
      ensures View() == INIT
    {
      activeTasks, waiters, live, pending := 0, map[], {}, {};
    }

    method TakeGuard(g: GuardId)
      requires g !in live + pending
      modifies this
      ensures Some(View()) == Step(old(View()), Increment(g))
    {
      activeTasks := activeTasks + 1;
      live := live + {g};
    }

    method Count() returns (n: nat)
      requires Inv(View())
      ensures n == |live|
    {
      n := activeTasks;
    }

    /** First half of dropping a guard: the decrement, whose result says whether to notify. */
    method FetchSub(g: GuardId) returns (last: bool)
      requires g in live
      modifies this
      ensures Some(View()) == Step(old(View()), Event.FetchSub(g))
      ensures Inv(old(View())) ==> last == (live == {})
    {
      var prev := activeTasks;
      activeTasks := activeTasks - 1;
      last := prev == 1;
      live := live - {g};
      if last {
        pending := pending + {g};
      }
      assert Inv(old(View())) ==> |live| == prev - 1;
    }

    /** Second half of dropping the last guard: `notify_waiters`. */
    method NotifyWaiters(g: GuardId)
      requires g in pending
      modifies this
      ensures Some(View()) == Step(old(View()), Event.NotifyWaiters(g))
    {
      waiters := WakeAll(waiters);
      pending := pending - {g};
    }

    /** A call of `wait_for_completion` begins. */
    method Enter(w: WaiterId)
      requires w !in waiters
      modifies this
      ensures Some(View()) == Step(old(View()), Event.Enter(w))
    {
      waiters := waiters[w := Entered];
    }

    /** `notified()`, awaited from here on. */
    method Register(w: WaiterId)
      requires At(View(), w, SawBusy)
      modifies this
      ensures Some(View()) == Step(old(View()), Event.Register(w))
    {
      waiters := waiters[w := Registered];
    }

    /** The await is over: woken, or out of time. */
    method Resume(w: WaiterId)
      requires At(View(), w, Woken)
      modifies this
      ensures Some(View()) == Step(old(View()), Event.Resume(w))
    {
      waiters := waiters[w := Looping];
    }

    method TimeOut(w: WaiterId)
      requires At(View(), w, Registered) || At(View(), w, Woken)
      modifies this
      ensures Some(View()) == Step(old(View()), Event.TimeOut(w))
    {
      waiters := waiters[w := TimedOut];
    }

    /** One event of some other party, if it is possible. */
    method Happen(e: Event) returns (possible: bool)
      modifies this
      ensures possible == Step(old(View()), e).Some?
      ensures View() == if possible then Step(old(View()), e).value else old(View())
    {
      var t := Step(View(), e);
      possible := t.Some?;
      if possible {
        activeTasks, waiters, live, pending := t.value.count, t.value.waiters, t.value.live, t.value.pending;
      }
    }

    /** A load of the counter by a call of `wait_for_completion`: return, go round, or go to sleep. */
    method ReadCount(w: WaiterId)
      requires At(View(), w, Entered) || At(View(), w, Looping)
      modifies this
      ensures Some(View()) == Step(old(View()), Event.ReadCount(w))
    {
      if activeTasks == 0 {
        waiters := waiters[w := Completed];
      } else if waiters[w] == Entered {
        waiters := waiters[w := Looping];
      } else {
        waiters := waiters[w := SawBusy];
      }
    }
  }
}
