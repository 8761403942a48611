/**
 How a notification session ends when no transport fails: the client sends its items and completes, the
 handler calls `next` until it returns None - or an error, after which it either calls `next` again or
 returns, as the repository's own example does with `?`.
 */
module Completion {
  import opened Wrappers
  import opened Notification

  /** A frame that the receiver skips. */
  predicate Stray<P>(f: Frame<P>) {
    f.Message? && !f.msg.Data? && !f.msg.Completed? && !f.msg.ServerShutdown?
  }

  function StraysIn<P>(fs: seq<Frame<P>>): nat {
    if fs == [] then 0 else (if Stray(fs[0]) then 1 else 0) + StraysIn(fs[1..])
  }

  lemma {:induction false} StraysInAppend<P>(fs: seq<Frame<P>>, f: Frame<P>)
    ensures StraysIn(fs + [f]) == StraysIn(fs) + if Stray(f) then 1 else 0
  {
    if fs == [] {
      assert fs + [f] == [f] && [f][1..] == [];
    } else {
      assert (fs + [f])[1..] == fs[1..] + [f];
      StraysInAppend(fs[1..], f);
    }
  }

  ghost predicate AllStray<P>(fs: seq<Frame<P>>) {
    forall f <- fs :: Stray(f)
  }

  /** Stray frames, and then this one. */
  ghost predicate EndsIn<P>(fs: seq<Frame<P>>, f: Frame<P>) {
    fs != [] && fs[|fs| - 1] == f && AllStray(fs[..|fs| - 1])
  }

  lemma EndsInAppend<P>(fs: seq<Frame<P>>, f: Frame<P>)
    requires AllStray(fs)
    ensures EndsIn(fs + [f], f)
    ensures Stray(f) ==> AllStray(fs + [f])
  {
    assert (fs + [f])[..|fs|] == fs;
  }

  lemma EndsInTail<P>(fs: seq<Frame<P>>, f: Frame<P>)
    requires EndsIn(fs, f) && !Stray(f)
    ensures if Stray(fs[0]) then EndsIn(fs[1..], f) else fs[0] == f && fs[1..] == []
  {
    if |fs| > 1 {
      assert fs[0] in fs[..|fs| - 1];
      assert fs[1..][..|fs| - 2] == fs[..|fs| - 1][1..];
    }
  }

  lemma HeadsIn<P>(fs: seq<Frame<P>>)
    requires fs != []
    ensures |DataIn(fs)| == |DataIn(fs[1..])| + if fs[0].Message? && fs[0].msg.Data? then 1 else 0
    ensures StraysIn(fs) == StraysIn(fs[1..]) + if Stray(fs[0]) then 1 else 0
  {
  }

  // ---------------------------------------------------------------------------------------------
  // The two sides' scripts
  // ---------------------------------------------------------------------------------------------

  /** What the client is to send, and what the handler does when `next` returns an error. */
  datatype Script<P> = Script(items: seq<P>, goesOn: bool)

  predicate LastFailed<P, T>(s: Session<P, T>) {
    s.returned != [] && s.returned[|s.returned| - 1].None?
  }

  /**
   No transport error: the client sends the items one by one and then completes, may put stray frames in
   between, and may give up once a send has failed; it finds the end of the acknowledgment stream only
   when the handler has ended and every acknowledgment has been read.
   */
  predicate Follows<P(==), T>(x: Script<P>, s: Session<P, T>, e: Event<P>) {
    match e
    case SendData(p) => |s.sent| < |x.items| && p == x.items[|s.sent|]
    case Complete => |s.sent| == |x.items|
    case DropSender => s.failedSends > 0
    case Intrude(f) => Stray(f)
    case MissAck => s.server.Ended? && s.down == []
    case ReadFrame => s.ends == 0 && (LastFailed(s) ==> x.goesOn)
    case ReadEnd => s.ends == 0 && (LastFailed(s) ==> x.goesOn)
    case Leave => s.ends > 0 || (LastFailed(s) && !x.goesOn)
    case OpenStream => true
    case SendEstablished => true
    case SendResponse => true
    case ReadResponse => true
    case ReadEstablished => true
    case ReadAck => true
    case SendAck => true
    case _ => false
  }

  ghost predicate ScriptRun<P, T>(decode: P -> Option<T>, key: Key, x: Script<P>, es: seq<Event<P>>) {
    es != [] ==>
      && ScriptRun(decode, key, x, es[..|es| - 1])
      && Run(decode, key, es).Some?
      && Follows(x, Run(decode, key, es[..|es| - 1]).value, es[|es| - 1])
  }

  // ---------------------------------------------------------------------------------------------
  // Where a session can stand
  // ---------------------------------------------------------------------------------------------

  function EstablishedFrame<P>(key: Key): Frame<P> {
    Message(Established(key.service, key.resource))
  }

  predicate Unharmed<P, T>(s: Session<P, T>) {
    s.failedSends == 0 && CountSome(s.returned) == |s.returned|
  }

  /** Before the client has its sender. */
  ghost predicate Joining<P, T>(key: Key, s: Session<P, T>) {
    && s.up == [] && s.sent == [] && s.ends == 0 && !s.upClosed && s.failedSends == 0
    && match (s.client, s.server)
       case (Connecting, Requested) => s.response == [] && s.down == []
       case (Connecting, Opened) => s.response == [] && s.down == []
       case (Connecting, EstablishedSent) => s.response == [] && s.down == [EstablishedFrame(key)]
       case (Connecting, Receiving) => s.response == [true] && s.down == [EstablishedFrame(key)]
       case (Opening, Receiving) => s.response == [] && s.down == [EstablishedFrame(key)]
       case _ => false
  }

  ghost predicate Awaits<P, T>(s: Session<P, T>) {
    && s.client.Awaiting? && s.sent != [] && s.ends == 0 && !s.upClosed
    && (|| (s.server.Receiving? && EndsIn(s.up, Message(Data(s.sent[|s.sent| - 1]))) && s.down == [])
        || (s.server.Acking? && s.up == [] && s.down == [])
        || (s.server.Receiving? && s.up == [] && s.down == [Message(Ack)]))
  }

  ghost predicate Closing<P, T>(x: Script<P>, s: Session<P, T>) {
    && s.client.Done? && s.sent == x.items && s.down == []
    && (|| (s.server.Receiving? && EndsIn(s.up, Message(Completed)) && s.ends == 0)
        || (s.server.Receiving? && s.up == [] && s.ends == 1)
        || (s.server.Ended? && s.up == [] && s.ends == 1))
  }

  ghost predicate Resting<P, T>(s: Session<P, T>) {
    s.client.Idle? && s.server.Receiving? && s.down == [] && AllStray(s.up) && s.ends == 0 && !s.upClosed
  }

  /** Every item so far was decoded. */
  ghost predicate Running<P, T>(x: Script<P>, s: Session<P, T>) {
    Unharmed(s) && (Resting(s) || Awaits(s) || Closing(x, s))
  }

  /** The last payload taken could not be decoded; all before it could. */
  ghost predicate ItemFailed<P, T>(decode: P -> Option<T>, s: Session<P, T>) {
    && LastFailed(s) && CountSome(s.returned) == |s.returned| - 1
    && |s.consumed| == |s.returned| && decode(s.consumed[|s.returned| - 1]).None?
  }

  /** An item failed, and both sides wait: the client for an acknowledgment, the handler for a frame. */
  ghost predicate Stuck<P, T>(decode: P -> Option<T>, s: Session<P, T>) {
    && ItemFailed(decode, s) && s.failedSends == 0 && s.ends == 0 && !s.upClosed
    && s.client.Awaiting? && s.server.Receiving? && s.up == [] && s.down == []
  }

  /** An item failed, and the handler has left. */
  ghost predicate Abandoned<P, T>(decode: P -> Option<T>, x: Script<P>, s: Session<P, T>) {
    && ItemFailed(decode, s) && !x.goesOn && s.server.Ended? && s.ends == 0 && s.down == []
    && (s.client.Awaiting? || ((s.client.Idle? || s.client.Done?) && s.failedSends > 0))
  }

  ghost predicate ScriptInv<P, T>(decode: P -> Option<T>, key: Key, x: Script<P>, s: Session<P, T>) {
    && Safe(decode, s) && s.sent <= x.items
    && (Joining(key, s) || Running(x, s) || Stuck(decode, s) || Abandoned(decode, x, s))
  }

  // ---------------------------------------------------------------------------------------------
  // Every event brings the end nearer
  // ---------------------------------------------------------------------------------------------

  function HandshakeRank<P, T>(s: Session<P, T>): nat {
    (match s.server case Requested => 3 case Opened => 2 case EstablishedSent => 1 case _ => 0) +
    (match s.client case Connecting => 2 case Opening => 1 case _ => 0)
  }

  function EndRank<P, T>(s: Session<P, T>): nat {
    (if s.client.Done? then 0 else 1) + (if s.ends == 0 then 1 else 0) + (if s.server.Ended? then 0 else 1)
  }

  /** Four events for each item not yet sent, fewer for the one on its way. */
  ghost function Measure<P, T>(x: Script<P>, s: Session<P, T>): nat
    requires s.sent <= x.items
  {
    HandshakeRank(s) + 4 * (|x.items| - |s.sent|) + 2 * |DataIn(s.up)| + StraysIn(s.up) + Pending(s) +
    (if s.client.Awaiting? then 1 else 0) + EndRank(s)
  }

  /** Every event makes the measure smaller, except that a stray frame put in makes it larger by one. */
  ghost predicate ScriptStepOk<P, T>(
    decode: P -> Option<T>, key: Key, x: Script<P>, s: Session<P, T>, t: Session<P, T>, e: Event<P>)
  {
    && ScriptInv(decode, key, x, s)
    && ScriptInv(decode, key, x, t)
    && Measure(x, t) < Measure(x, s) + if e.Intrude? then 2 else 0
  }

  ghost predicate Takes<P, T>(decode: P -> Option<T>, key: Key, x: Script<P>, s: Session<P, T>, e: Event<P>) {
    ScriptInv(decode, key, x, s) && Step(decode, key, s, e).Some? && Follows(x, s, e)
  }

  lemma JoiningStep<P, T>(decode: P -> Option<T>, key: Key, x: Script<P>, s: Session<P, T>, e: Event<P>)
    requires Takes(decode, key, x, s, e) && Joining(key, s)
    ensures ScriptStepOk(decode, key, x, s, Step(decode, key, s, e).value, e)
  {
    hide DataIn, AcksIn, StraysIn, Stuck, Abandoned, Awaits, Closing, Decoded;
    assert s.returned == [] && s.failedSends == 0;
    SafeStep(decode, key, s, e);
  }

  /** What the client puts on the stream. */
  lemma ClientStep<P, T>(decode: P -> Option<T>, key: Key, x: Script<P>, s: Session<P, T>, e: Event<P>)
    requires Takes(decode, key, x, s, e) && Running(x, s)
    requires e.SendData? || e.Complete? || e.Intrude?
    ensures ScriptStepOk(decode, key, x, s, Step(decode, key, s, e).value, e)
  {
    hide Safe, AllStray, EndsIn, DataIn, StraysIn, Stuck, Abandoned, Joining;
    SafeStep(decode, key, s, e);
    var f := match e case SendData(p) => Message(Data(p)) case Complete => Message(Completed) case Intrude(g) => g;
    EndsInAppend(s.up, f);
    DataInAppend(s.up, f);
    StraysInAppend(s.up, f);
  }

  lemma StrayRead<P, T>(decode: P -> Option<T>, key: Key, x: Script<P>, s: Session<P, T>)
    requires Takes(decode, key, x, s, ReadFrame) && Running(x, s) && Stray(s.up[0])
    ensures ScriptStepOk(decode, key, x, s, Step(decode, key, s, ReadFrame).value, ReadFrame)
  {
    hide Safe, EndsIn, DataIn, StraysIn, AcksIn, Stuck, Abandoned, Joining, CountSome;
    SafeStep(decode, key, s, ReadFrame);
    HeadsIn(s.up);
    if s.client.Awaiting? {
      EndsInTail(s.up, Message(Data(s.sent[|s.sent| - 1])));
    } else if s.client.Done? {
      EndsInTail(s.up, Message(Completed));
    }
  }

  lemma DataRead<P, T>(decode: P -> Option<T>, key: Key, x: Script<P>, s: Session<P, T>)
    requires Takes(decode, key, x, s, ReadFrame) && Running(x, s) && Awaits(s) && !Stray(s.up[0])
    ensures ScriptStepOk(decode, key, x, s, Step(decode, key, s, ReadFrame).value, ReadFrame)
  {
    hide EndsIn, DataIn, StraysIn, AcksIn, Abandoned, Joining, CountSome, Decoded;
    SafeStep(decode, key, s, ReadFrame);
    HeadsIn(s.up);
    EndsInTail(s.up, Message(Data(s.sent[|s.sent| - 1])));
    CountSomeAppend(s.returned, None);
  }

  lemma AckStep<P, T>(decode: P -> Option<T>, key: Key, x: Script<P>, s: Session<P, T>, e: Event<P>)
    requires Takes(decode, key, x, s, e) && Running(x, s) && Awaits(s)
    requires e.SendAck? || e.ReadAck?
    ensures ScriptStepOk(decode, key, x, s, Step(decode, key, s, e).value, e)
  {
    hide Safe, EndsIn, StraysIn, DataIn, CountSome, Stuck, Abandoned, Joining;
    OneFrame<P>(Message(Ack));
    assert s.down == [] ==> s.down + [Message(Ack)] == [Message(Ack)];
    SafeStep(decode, key, s, e);
    if e.SendAck? {
      CountSomeAppend(s.returned, Some(s.server.item));
    }
  }

  lemma UnharmedMeansNoneFailed<P, T>(s: Session<P, T>)
    requires Unharmed(s)
    ensures !LastFailed(s)
  {
  }

  lemma ClosingRead<P, T>(decode: P -> Option<T>, key: Key, x: Script<P>, s: Session<P, T>)
    requires Takes(decode, key, x, s, ReadFrame) && Running(x, s) && Closing(x, s) && !Stray(s.up[0])
    ensures ScriptStepOk(decode, key, x, s, Step(decode, key, s, ReadFrame).value, ReadFrame)
  {
    SafeStep(decode, key, s, ReadFrame);
    hide Safe, DataIn, StraysIn, AcksIn, CountSome, Stuck, Abandoned, Joining, Resting, Awaits;
    HeadsIn(s.up);
    EndsInTail(s.up, Message(Completed));
    hide EndsIn;
    assert s.up[0] == Message(Completed);
    assert Closing(x, Step(decode, key, s, ReadFrame).value);
  }

  lemma ClosingStep<P, T>(decode: P -> Option<T>, key: Key, x: Script<P>, s: Session<P, T>, e: Event<P>)
    requires Takes(decode, key, x, s, e) && Running(x, s) && Closing(x, s)
    requires e.ReadFrame? ==> !Stray(s.up[0])
    ensures ScriptStepOk(decode, key, x, s, Step(decode, key, s, e).value, e)
  {
    if e.ReadFrame? {
      hide ScriptStepOk, Step, Closing, Running;
      ClosingRead(decode, key, x, s);
    } else {
      UnharmedMeansNoneFailed(s);
      SafeStep(decode, key, s, e);
      hide Safe, EndsIn, DataIn, StraysIn, AcksIn, CountSome, Stuck, Abandoned, Joining, Resting, Awaits;
      assert e.Leave? && s.ends == 1;
      assert Closing(x, Step(decode, key, s, e).value);
    }
  }

  lemma StuckStep<P, T>(decode: P -> Option<T>, key: Key, x: Script<P>, s: Session<P, T>, e: Event<P>)
    requires Takes(decode, key, x, s, e) && Stuck(decode, s)
    ensures e.Leave? && !x.goesOn
    ensures ScriptStepOk(decode, key, x, s, Step(decode, key, s, e).value, e)
  {
    hide Safe, DataIn, StraysIn, AcksIn, CountSome, Running, Joining;
    SafeStep(decode, key, s, e);
  }

  lemma AbandonedStep<P, T>(decode: P -> Option<T>, key: Key, x: Script<P>, s: Session<P, T>, e: Event<P>)
    requires Takes(decode, key, x, s, e) && Abandoned(decode, x, s)
    ensures ScriptStepOk(decode, key, x, s, Step(decode, key, s, e).value, e)
  {
    hide Safe, DataIn, StraysIn, AcksIn, CountSome, Running, Joining, Stuck;
    SafeStep(decode, key, s, e);
    if e.SendData? || e.Complete? || e.Intrude? {
      var f := match e case SendData(p) => Message(Data(p)) case Complete => Message(Completed) case Intrude(g) => g;
      DataInAppend(s.up, f);
      StraysInAppend(s.up, f);
    }
  }

  lemma RunningStep<P, T>(decode: P -> Option<T>, key: Key, x: Script<P>, s: Session<P, T>, e: Event<P>)
    requires Takes(decode, key, x, s, e) && Running(x, s)
    ensures ScriptStepOk(decode, key, x, s, Step(decode, key, s, e).value, e)
  {
    UnharmedMeansNoneFailed(s);
    hide ScriptStepOk, Safe, EndsIn, ScriptInv, CountSome;
    if e.SendData? || e.Complete? || e.Intrude? {
      ClientStep(decode, key, x, s, e);
    } else if e.ReadFrame? && Stray(s.up[0]) {
      StrayRead(decode, key, x, s);
    } else if s.client.Done? {
      ClosingStep(decode, key, x, s, e);
    } else if e.ReadFrame? {
      assert s.client.Idle? ==> s.up[0] in s.up;
      DataRead(decode, key, x, s);
    } else {
      AckStep(decode, key, x, s, e);
    }
  }

  lemma ScriptStep<P, T>(decode: P -> Option<T>, key: Key, x: Script<P>, s: Session<P, T>, e: Event<P>)
    requires Takes(decode, key, x, s, e)
    ensures ScriptStepOk(decode, key, x, s, Step(decode, key, s, e).value, e)
  {
    hide ScriptStepOk, Safe, Step, Follows, Joining, Running, Stuck, Abandoned;
    if Joining(key, s) {
      JoiningStep(decode, key, x, s, e);
    } else if Running(x, s) {
      RunningStep(decode, key, x, s, e);
    } else if Stuck(decode, s) {
      StuckStep(decode, key, x, s, e);
    } else {
      AbandonedStep(decode, key, x, s, e);
    }
  }

  lemma StartIsSafe<P, T>(decode: P -> Option<T>)
    ensures Safe(decode, Init<P, T>())
  {
  }

  lemma StartMeasure<P, T>(x: Script<P>)
    ensures Init<P, T>().sent <= x.items
    ensures Measure(x, Init<P, T>()) == 4 * |x.items| + 8
  {
  }

  lemma ScriptStart<P, T>(decode: P -> Option<T>, key: Key, x: Script<P>)
    ensures ScriptInv(decode, key, x, Init())
    ensures Measure(x, Init<P, T>()) == 4 * |x.items| + 8
  {
    hide Safe, Measure;
    StartIsSafe<P, T>(decode);
    StartMeasure<P, T>(x);
  }

  function Intrusions<P>(es: seq<Event<P>>): nat {
    if es == [] then 0 else Intrusions(es[..|es| - 1]) + if es[|es| - 1].Intrude? then 1 else 0
  }

  /** A script run does not go on for ever: n items and k stray frames take at most 4n + 8 + 2k events. */
  lemma {:induction false} ScriptRunBounded<P, T>(decode: P -> Option<T>, key: Key, x: Script<P>, es: seq<Event<P>>)
    requires ScriptRun(decode, key, x, es)
    ensures Run(decode, key, es).Some? && ScriptInv(decode, key, x, Run(decode, key, es).value)
    ensures |es| + Measure(x, Run(decode, key, es).value) <= 4 * |x.items| + 8 + 2 * Intrusions(es)
  {
    hide Step, Follows, Init, Safe, Joining, Running, Stuck, Abandoned, Measure;
    if es == [] {
      ScriptStart(decode, key, x);
    } else {
      ScriptRunBounded(decode, key, x, es[..|es| - 1]);
      ScriptStep(decode, key, x, Run(decode, key, es[..|es| - 1]).value, es[|es| - 1]);
    }
  }

  // ---------------------------------------------------------------------------------------------
  // The three ends
  // ---------------------------------------------------------------------------------------------

  /** Both sides are through, and `next` returned None once. */
  predicate Finished<P, T>(s: Session<P, T>) {
    s.client.Done? && s.server.Ended? && s.ends == 1
  }

  ghost predicate Over<P, T>(decode: P -> Option<T>, x: Script<P>, s: Session<P, T>) {
    || Finished(s)
    || (Stuck(decode, s) && x.goesOn)
    || (Abandoned(decode, x, s) && s.client.Done?)
  }

  /** No other deadlock: short of one of these ends some event is always possible. */
  lemma SomeEventPossible<P, T>(decode: P -> Option<T>, key: Key, x: Script<P>, s: Session<P, T>) returns (e: Event<P>)
    requires ScriptInv(decode, key, x, s) && !Over(decode, x, s)
    ensures Follows(x, s, e) && Step(decode, key, s, e).Some?
  {
    hide Safe, CountSome;
    if Joining(key, s) {
      e := match s.client
        case Opening => ReadEstablished
        case _ =>
          match s.server
          case Requested => OpenStream
          case Opened => SendEstablished
          case EstablishedSent => SendResponse
          case _ => ReadResponse;
    } else if Running(x, s) {
      UnharmedMeansNoneFailed(s);
      e := match s.client
        case Idle => if |s.sent| < |x.items| then SendData(x.items[|s.sent|]) else Complete
        case Awaiting => if s.server.Acking? then SendAck else if s.up != [] then ReadFrame else ReadAck
        case _ => if s.ends == 0 then ReadFrame else Leave;
    } else if Stuck(decode, s) {
      e := Leave;
    } else {
      e := if s.client.Awaiting? then MissAck else DropSender;
    }
  }

  /** The ends are ends. */
  lemma NoEventAtTheEnd<P, T>(decode: P -> Option<T>, key: Key, x: Script<P>, s: Session<P, T>, e: Event<P>)
    requires ScriptInv(decode, key, x, s) && Over(decode, x, s)
    ensures !(Follows(x, s, e) && Step(decode, key, s, e).Some?)
  {
    hide Safe, CountSome;
    if Follows(x, s, e) && Step(decode, key, s, e).Some? {
      if Stuck(decode, s) {
        StuckStep(decode, key, x, s, e);
      }
    }
  }

  /** A script run that cannot be extended. */
  ghost predicate Maximal<P(!new), T>(decode: P -> Option<T>, key: Key, x: Script<P>, es: seq<Event<P>>) {
    && ScriptRun(decode, key, x, es)
    && Run(decode, key, es).Some?
    && forall e: Event<P> :: Follows(x, Run(decode, key, es).value, e) ==>
         Step(decode, key, Run(decode, key, es).value, e).None?
  }

  /** The index of the first payload that cannot be decoded; their number if all can. */
  function FirstBad<P, T>(decode: P -> Option<T>, items: seq<P>): (n: nat)
    ensures n <= |items|
    ensures n < |items| ==> decode(items[n]).None?
    ensures forall i :: 0 <= i < n ==> decode(items[i]).Some?
  {
    if items == [] || decode(items[0]).None? then 0 else 1 + FirstBad(decode, items[1..])
  }

  /** What `next` has returned so far: the items before the first bad one, and an error for that one. */
  lemma ReturnedUpToFirstBad<P, T>(decode: P -> Option<T>, x: Script<P>, s: Session<P, T>)
    requires Safe(decode, s) && s.sent <= x.items
    requires (Unharmed(s) && s.sent == x.items == s.consumed && s.server.Ended?) || ItemFailed(decode, s)
    ensures var n := FirstBad(decode, x.items);
            && CountSome(s.returned) == n == |Delivered(s.returned)|
            && (ItemFailed(decode, s) <==> n < |x.items|)
            && forall i :: 0 <= i < n ==> decode(x.items[i]) == Some(Delivered(s.returned)[i])
  {
    var good := if ItemFailed(decode, s) then s.returned[..|s.returned| - 1] else s.returned;
    assert CountSome(good) == |good|;
    assert Delivered(s.returned) == Delivered(good);
    DeliveredLength(s.returned);
    assert Decoded(decode, s.consumed, good);
    assert s.consumed <= s.sent <= x.items;
    hide Safe, Delivered, CountSome, FirstBad, Decoded;
    GoodReturned(decode, x.items, s.consumed, good);
    assert ItemFailed(decode, s) ==> s.consumed[|good|] == x.items[|good|];
    FirstBadIs(decode, x.items, |good|);
  }

  lemma GoodReturned<P, T>(decode: P -> Option<T>, items: seq<P>, consumed: seq<P>, good: seq<Option<T>>)
    requires consumed <= items && Decoded(decode, consumed, good) && CountSome(good) == |good|
    ensures |good| <= |items| && |Delivered(good)| == |good|
    ensures forall i :: 0 <= i < |good| ==> decode(items[i]) == Some(Delivered(good)[i])
  {
    DeliveredLength(good);
    assert forall i :: 0 <= i < |good| ==> consumed[i] == items[i];
  }

  lemma FirstBadIs<P, T>(decode: P -> Option<T>, items: seq<P>, n: nat)
    requires n <= |items| && (n < |items| ==> decode(items[n]).None?)
    requires forall i :: 0 <= i < n ==> decode(items[i]).Some?
    ensures FirstBad(decode, items) == n
  {
    var m := FirstBad(decode, items);
    assert m < |items| ==> decode(items[m]).None?;
  }

  /**
   However the events interleave, a session without transport errors ends in one of three ways: both sides
   finish if and only if every item can be decoded; a `send` returns an error if and only if some item
   cannot and the handler leaves on the error; both sides wait for ever if and only if some item cannot
   and the handler goes on.  In each case exactly the items before the first bad one have been delivered,
   in order, and acknowledged.
   */
  lemma EndsExactly<P(!new), T>(decode: P -> Option<T>, key: Key, x: Script<P>, es: seq<Event<P>>)
    requires Maximal(decode, key, x, es)
    ensures var s, n := Run(decode, key, es).value, FirstBad(decode, x.items);
            && (Finished(s) <==> n == |x.items|)
            && (s.failedSends > 0 <==> n < |x.items| && !x.goesOn)
            && (Stuck(decode, s) <==> n < |x.items| && x.goesOn)
            && s.okSends == n == |Delivered(s.returned)|
            && (forall i :: 0 <= i < n ==> decode(x.items[i]) == Some(Delivered(s.returned)[i]))
            && (Finished(s) ==> s.sent == x.items)
            && (Stuck(decode, s) ==> |s.sent| == n + 1)
  {
    ScriptRunBounded(decode, key, x, es);
    var s := Run(decode, key, es).value;
    if !Over(decode, x, s) {
      var e := SomeEventPossible(decode, key, x, s);
      assert false;
    }
    hide Run, Follows, Step, CountSome;
    if Finished(s) {
      assert Closing(x, s) && s.up == [];
      assert s.consumed == s.sent;
    }
    ReturnedUpToFirstBad(decode, x, s);
  }
}
