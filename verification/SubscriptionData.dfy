/**
 The data phase of a subscription: the server's sink writes frames, the network hands them over in order,
 and the consumer polls the generated stream (zel_core/src/protocol/streaming.rs,
 zel_core/src/protocol/client.rs, zel_macros/src/render/types.rs).

 `decode` is the deserialization of items, about which nothing is assumed.  A pending poll of the framed
 stream leaves a waker that the next arrival calls.
 */
module SubscriptionData {
  import opened Wrappers

  datatype Msg<P> =
    | Established(service: string, resource: string)
    | Data(data: P)
    | Stopped
    | ServerShutdown

  /** A frame, or a read that fails (`Lost`). */
  datatype Frame<P> = Malformed | Lost | Message(msg: Msg<P>)

  datatype Poll<T> = Ready(value: T) | Pending

  datatype ClientError = Serialization | Connection

  type Item<T> = Result<T, ClientError>

  /** What the generated stream makes of one frame. */
  datatype Reaction<T> =
    | Skip                 // ask to be polled again
    | Yield(item: Item<T>)
    | End

  function Decoded<P, T>(decode: P -> Option<T>, p: P): Item<T> {
    match decode(p) case Some(item) => Ok(item) case None => Err(Serialization)
  }

  function React<P, T>(decode: P -> Option<T>, f: Frame<P>): Reaction<T> {
    match f
    case Malformed => Yield(Err(Serialization))
    case Lost => Yield(Err(Connection))
    case Message(Data(p)) => Yield(Decoded(decode, p))
    case Message(Established(_, _)) => Skip
    case Message(_) => End
  }

  /** What a consumer gets out of these frames: everything up to the first that ends the stream. */
  function Yields<P, T>(decode: P -> Option<T>, fs: seq<Frame<P>>): seq<Item<T>> {
    if fs == [] then []
    else match React(decode, fs[0])
      case Skip => Yields(decode, fs[1..])
      case Yield(item) => [item] + Yields(decode, fs[1..])
      case End => []
  }

  predicate HasEnd<P, T>(decode: P -> Option<T>, fs: seq<Frame<P>>) {
    exists i :: 0 <= i < |fs| && React(decode, fs[i]).End?
  }

  // ---------------------------------------------------------------------------------------------
  // One subscription as a step system
  // ---------------------------------------------------------------------------------------------

  datatype Consumer =
    | Runnable   // about to poll: first time, after an item, or woken
    | Asleep     // the last poll was pending and nothing has woken it since
    | Finished   // got None

  /** The client's end: frames ready to be read and whether the end has arrived, the consumer, what it has
      read and what it made of it. */
  datatype Reader<P, T> = Reader(
    arrived: seq<Frame<P>>, ended: bool, consumer: Consumer, taken: seq<Frame<P>>, yielded: seq<Item<T>>)

  /** `written` is everything the server wrote on the stream, `finished` says that it has closed it. */
  datatype Link<P, T> = Link(
    written: seq<Frame<P>>, finished: bool, inFlight: seq<Frame<P>>, reader: Reader<P, T>)

  function Init<P, T>(): Link<P, T> {
    Link([], false, [], Reader([], false, Runnable, [], []))
  }

  datatype Event<P> = Write(f: Frame<P>) | Finish | Arrive | ArriveEnd | PollNext

  function Wake(c: Consumer): Consumer {
    if c.Asleep? then Runnable else c
  }

  function AfterArrival<P, T>(r: Reader<P, T>, f: Frame<P>): Reader<P, T> {
    r.(arrived := r.arrived + [f], consumer := Wake(r.consumer))
  }

  function AfterEnd<P, T>(r: Reader<P, T>): Reader<P, T> {
    r.(ended := true, consumer := Wake(r.consumer))
  }

  function AfterPoll<P, T>(decode: P -> Option<T>, r: Reader<P, T>): Reader<P, T> {
    if r.arrived == [] then r.(consumer := if r.ended then Finished else Asleep)
    else
      var t := r.(arrived := r.arrived[1..], taken := r.taken + [r.arrived[0]]);
      match React(decode, r.arrived[0])
      case Skip => t
      case Yield(item) => t.(yielded := r.yielded + [item])
      case End => t.(consumer := Finished)
  }

  function Step<P, T>(decode: P -> Option<T>, s: Link<P, T>, e: Event<P>): Option<Link<P, T>> {
    match e
    case Write(f) =>
      if s.finished then None else Some(s.(written := s.written + [f], inFlight := s.inFlight + [f]))
    case Finish => if s.finished then None else Some(s.(finished := true))
    case Arrive =>
      if s.inFlight == [] then None
      else Some(s.(inFlight := s.inFlight[1..], reader := AfterArrival(s.reader, s.inFlight[0])))
    case ArriveEnd =>
      if s.finished && s.inFlight == [] && !s.reader.ended then Some(s.(reader := AfterEnd(s.reader))) else None
    case PollNext =>
      if s.reader.consumer.Runnable? then Some(s.(reader := AfterPoll(decode, s.reader))) else None
  }

  function Run<P, T>(decode: P -> Option<T>, s: Link<P, T>, es: seq<Event<P>>): Option<Link<P, T>> {
    if es == [] then Some(s)
    else
      var p := Run(decode, s, es[..|es| - 1]);
      if p.None? then None else Step(decode, p.value, es[|es| - 1])
  }

  // ---------------------------------------------------------------------------------------------
  // The client's end as objects
  // ---------------------------------------------------------------------------------------------

  /** The generated stream.  `arrived` are the frames ready to be read, `ended` says that no more will come;
      `waker` is set while the framed stream holds one, `woken` once a new poll has been asked for. */
  class TypedStream<P(==), T> {
    var arrived: seq<Frame<P>>
    var ended: bool
    var waker: bool
    var woken: bool
    const decode: P -> Option<T>

    constructor (decode: P -> Option<T>)
      ensures this.decode == decode && arrived == [] && !ended && !waker && woken
    {
      this.decode, arrived, ended, waker, woken := decode, [], false, false, true;
    }

    /** The framed stream below. */
    method PollInner() returns (r: Poll<Option<Frame<P>>>)
      modifies this`arrived, this`waker
      ensures r.Pending? ==> arrived == old(arrived) == [] && !ended && waker
      ensures r.Ready? ==> waker == old(waker)
      ensures r == Ready(None) ==> arrived == old(arrived) == [] && ended
      ensures r.Ready? && r.value.Some? ==> old(arrived) == [r.value.value] + arrived
    {
      if arrived != [] {
        r := Ready(Some(arrived[0]));
        arrived := arrived[1..];
      } else if ended {
        r := Ready(None);
      } else {
        waker := true;
        r := Pending;
      }
    }

    method PollNext() returns (r: Poll<Option<Item<T>>>)
      modifies this`arrived, this`waker, this`woken
      ensures old(arrived) == [] ==>
                arrived == [] && woken == old(woken)
                && (if ended then r == Ready(None) && waker == old(waker) else r == Pending && waker)
      ensures old(arrived) != [] ==>
                && arrived == old(arrived)[1..] && waker == old(waker)
                && (!(old(arrived)[0].Message? && old(arrived)[0].msg.Established?) ==> woken == old(woken))
                && match old(arrived)[0]
                   case Malformed => r == Ready(Some(Err(Serialization)))
                   case Lost => r == Ready(Some(Err(Connection)))
                   case Message(Data(p)) =>
                     r == Ready(Some(if decode(p).Some? then Ok(decode(p).value) else Err(Serialization)))
                   case Message(Established(_, _)) => r == Pending && woken
                   case Message(Stopped) => r == Ready(None)
                   case Message(ServerShutdown) => r == Ready(None)
    {
      var polled := PollInner();
      match polled {
        case Pending => r := Pending;
        case Ready(None) => r := Ready(None);
        case Ready(Some(Malformed)) => r := Ready(Some(Err(Serialization)));
        case Ready(Some(Lost)) => r := Ready(Some(Err(Connection)));
        case Ready(Some(Message(msg))) =>
          match msg {
            case Data(data) =>
              match decode(data) {
                case Some(value) => r := Ready(Some(Ok(value)));
                case None => r := Ready(Some(Err(Serialization)));
              }
            case Stopped => r := Ready(None);
            case ServerShutdown => r := Ready(None);
            case Established(_, _) =>
              woken := true;
              r := Pending;
          }
      }
    }

    /** A frame arrives, or the end: a waker left behind is called. */
    method Arrive(f: Option<Frame<P>>)
      modifies this`arrived, this`ended, this`waker, this`woken
      ensures arrived == old(arrived) + (match f case Some(frame) => [frame] case None => [])
      ensures ended == (old(ended) || f.None?)
      ensures woken == (old(woken) || old(waker)) && !waker
    {
      match f {
        case Some(frame) => arrived := arrived + [frame];
        case None => ended := true;
      }
      if waker {
        waker, woken := false, true;
      }
    }
  }

  /** The task that consumes a stream: `while let Some(item) = stream.next().await`. */
  class Subscriber<P(==), T> {
    const stream: TypedStream<P, T>
    var yielded: seq<Item<T>>
    var finished: bool
    ghost var taken: seq<Frame<P>>

    /** The client's end of the step system. */
    ghost function View(): Reader<P, T>
      reads this, stream
    {
      Reader(stream.arrived, stream.ended,
             if finished then Finished else if stream.woken then Runnable else Asleep, taken, yielded)
    }

    /** Whoever sleeps has left a waker. */
    predicate Valid()
      reads this, stream
    {
      !finished && !stream.woken ==> stream.waker
    }

    constructor (decode: P -> Option<T>)
      ensures Valid() && fresh(stream) && stream.decode == decode && View() == Init<P, T>().reader
    {
      stream := new TypedStream(decode);
      yielded, finished, taken := [], false, [];
    }

    /** One turn of the task: exactly the poll of the step system. */
    method Poll()
      requires Valid() && View().consumer.Runnable?
      modifies this, stream
      ensures Valid() && View() == AfterPoll(stream.decode, old(View()))
    {
      stream.woken := false;
      if stream.arrived != [] {
        taken := taken + [stream.arrived[0]];
      }
      var polled := stream.PollNext();
      match polled {
        case Pending =>
        case Ready(Some(item)) =>
          yielded := yielded + [item];
          stream.woken := true;
        case Ready(None) => finished := true;
      }
    }

    /** What the network brings wakes the task if it sleeps, and only then changes where it stands. */
    method Receive(f: Option<Frame<P>>)
      requires Valid()
      modifies stream
      ensures Valid()
      ensures View() == match f case Some(frame) => AfterArrival(old(View()), frame) case None => AfterEnd(old(View()))
    {
      stream.Arrive(f);
    }
  }

  // ---------------------------------------------------------------------------------------------
  // Nothing is lost, reordered or slept through
  // ---------------------------------------------------------------------------------------------

  lemma {:induction false} YieldsAppend<P, T>(decode: P -> Option<T>, fs: seq<Frame<P>>, gs: seq<Frame<P>>)
    ensures Yields(decode, fs + gs) == Yields(decode, fs) + if HasEnd(decode, fs) then [] else Yields(decode, gs)
  {
    if fs == [] {
      assert fs + gs == gs;
    } else {
      assert (fs + gs)[1..] == fs[1..] + gs;
      YieldsAppend(decode, fs[1..], gs);
      assert HasEnd(decode, fs) <==> React(decode, fs[0]).End? || HasEnd(decode, fs[1..]) by {
        if HasEnd(decode, fs[1..]) {
          var i :| 0 <= i < |fs[1..]| && React(decode, fs[1..][i]).End?;
          assert React(decode, fs[i + 1]).End?;
        }
        if HasEnd(decode, fs) && !React(decode, fs[0]).End? {
          var i :| 0 <= i < |fs| && React(decode, fs[i]).End?;
          assert React(decode, fs[1..][i - 1]).End?;
        }
      }
    }
  }

  ghost predicate ReaderInv<P, T>(decode: P -> Option<T>, r: Reader<P, T>) {
    && r.yielded == Yields(decode, r.taken)
    && (r.consumer.Asleep? ==> r.arrived == [] && !r.ended)
    && (r.consumer.Finished? ==> HasEnd(decode, r.taken) || (r.ended && r.arrived == []))
    && (HasEnd(decode, r.taken) ==> r.consumer.Finished?)
  }

  /** Frames are taken in the order in which they were written, and each yields what it should; the
      consumer sleeps only while there is nothing for it, and finishes only for a reason. */
  ghost predicate Inv<P, T>(decode: P -> Option<T>, s: Link<P, T>) {
    && s.written == s.reader.taken + (s.reader.arrived + s.inFlight)
    && (s.reader.ended ==> s.finished && s.inFlight == [])
    && ReaderInv(decode, s.reader)
  }

  lemma OneMoreTaken<P, T>(decode: P -> Option<T>, fs: seq<Frame<P>>, f: Frame<P>)
    requires !HasEnd(decode, fs)
    ensures HasEnd(decode, fs + [f]) <==> React(decode, f).End?
    ensures Yields(decode, fs + [f]) ==
            Yields(decode, fs) + match React(decode, f) case Yield(item) => [item] case _ => []
  {
    hide React;
    YieldsAppend(decode, fs, [f]);
    assert Yields(decode, [f][1..]) == [];
    assert (fs + [f])[|fs|] == f;
  }

  lemma TakeOne<F>(taken: seq<F>, arrived: seq<F>, inFlight: seq<F>)
    requires arrived != []
    ensures (taken + [arrived[0]]) + (arrived[1..] + inFlight) == taken + (arrived + inFlight)
  {
  }

  lemma PollKeepsInv<P, T>(decode: P -> Option<T>, s: Link<P, T>)
    requires Inv(decode, s) && s.reader.consumer.Runnable?
    ensures Inv(decode, s.(reader := AfterPoll(decode, s.reader)))
  {
    if s.reader.arrived != [] {
      hide Yields, HasEnd, React;
      OneMoreTaken(decode, s.reader.taken, s.reader.arrived[0]);
      TakeOne(s.reader.taken, s.reader.arrived, s.inFlight);
    }
  }

  lemma StepKeepsInv<P, T>(decode: P -> Option<T>, s: Link<P, T>, e: Event<P>)
    requires Inv(decode, s) && Step(decode, s, e).Some?
    ensures Inv(decode, Step(decode, s, e).value)
  {
    var r, moving := s.reader, s.inFlight;
    match e {
      case PollNext => PollKeepsInv(decode, s);
      case Write(f) => assert (r.taken + (r.arrived + moving)) + [f] == r.taken + (r.arrived + (moving + [f]));
      case Arrive => assert r.arrived + moving == (r.arrived + [moving[0]]) + moving[1..];
      case _ =>
    }
  }

  lemma StartHolds<P, T>(decode: P -> Option<T>)
    ensures Inv(decode, Init())
  {
  }

  lemma {:induction false} RunKeepsInv<P, T>(decode: P -> Option<T>, s: Link<P, T>, es: seq<Event<P>>)
    requires Inv(decode, s) && Run(decode, s, es).Some?
    ensures Inv(decode, Run(decode, s, es).value)
  {
    hide Inv, Step;
    if es != [] {
      RunKeepsInv(decode, s, es[..|es| - 1]);
      StepKeepsInv(decode, Run(decode, s, es[..|es| - 1]).value, es[|es| - 1]);
    }
  }

  /** In every run the consumer has got an initial part of what the frames written will yield, and it is
      asleep only if every frame that arrived has been read. */
  lemma YieldsArePrefix<P, T>(decode: P -> Option<T>, es: seq<Event<P>>)
    requires Run(decode, Init(), es).Some?
    ensures var s := Run(decode, Init(), es).value;
            && s.reader.yielded <= Yields(decode, s.written)
            && (s.reader.consumer.Asleep? ==> s.reader.arrived == [] && !s.reader.ended)
  {
    StartHolds(decode);
    RunKeepsInv(decode, Init(), es);
    var s := Run(decode, Init(), es).value;
    YieldsAppend(decode, s.reader.taken, s.reader.arrived + s.inFlight);
  }

  /** How many events are left, at most, once the server has finished. */
  function Measure<P, T>(s: Link<P, T>): nat {
    4 * |s.inFlight| + 2 * |s.reader.arrived| + (if s.reader.ended then 0 else 3) +
    match s.reader.consumer case Runnable => 1 case Asleep => 0 case Finished => 0
  }

  lemma WindingStep<P, T>(decode: P -> Option<T>, s: Link<P, T>, e: Event<P>)
    requires Inv(decode, s) && s.finished && Step(decode, s, e).Some?
    ensures Measure(Step(decode, s, e).value) < Measure(s) && Step(decode, s, e).value.finished
    ensures Step(decode, s, e).value.written == s.written
  {
  }

  /** Once the server has finished, a run has at most as many more events as the measure says. */
  lemma {:induction false} Winding<P, T>(decode: P -> Option<T>, s: Link<P, T>, es: seq<Event<P>>)
    requires Inv(decode, s) && s.finished && Run(decode, s, es).Some?
    ensures var t := Run(decode, s, es).value;
            |es| + Measure(t) <= Measure(s) && t.finished && t.written == s.written
  {
    hide Inv, Step, Measure;
    if es != [] {
      Winding(decode, s, es[..|es| - 1]);
      RunKeepsInv(decode, s, es[..|es| - 1]);
      WindingStep(decode, Run(decode, s, es[..|es| - 1]).value, es[|es| - 1]);
    }
  }

  ghost predicate NoEventLeft<P(!new), T>(decode: P -> Option<T>, s: Link<P, T>) {
    forall e: Event<P> :: Step(decode, s, e).None?
  }

  /** However writing, arriving and polling interleave: when nothing is left to happen the consumer has
      got exactly what the frames written yield, and then None. */
  lemma ConsumerGetsEverything<P(!new), T>(decode: P -> Option<T>, es: seq<Event<P>>)
    requires Run(decode, Init(), es).Some? && NoEventLeft(decode, Run(decode, Init(), es).value)
    ensures var s := Run(decode, Init(), es).value;
            s.reader.consumer.Finished? && s.reader.yielded == Yields(decode, s.written)
  {
    StartHolds(decode);
    RunKeepsInv(decode, Init(), es);
    var s := Run(decode, Init(), es).value;
    assert Step(decode, s, Finish).None? && Step(decode, s, Arrive).None?;
    assert Step(decode, s, ArriveEnd).None? && Step(decode, s, PollNext).None?;
    YieldsAppend(decode, s.reader.taken, s.reader.arrived + s.inFlight);
  }

  // ---------------------------------------------------------------------------------------------
  // The server's end
  // ---------------------------------------------------------------------------------------------

  /** The data frames that `send` writes for these payloads. */
  function DataFrames<P>(items: seq<P>): (fs: seq<Frame<P>>)
    ensures |fs| == |items|
  {
    if items == [] then [] else DataFrames(items[..|items| - 1]) + [Message(Data(items[|items| - 1]))]
  }

  /** What a subscriber should get for these payloads: one result each. */
  function Results<P, T>(decode: P -> Option<T>, items: seq<P>): (r: seq<Item<T>>)
    ensures |r| == |items| && forall i :: 0 <= i < |r| ==> r[i] == Decoded(decode, items[i])
  {
    seq(|items|, i requires 0 <= i < |items| => Decoded(decode, items[i]))
  }

  /**
   A handler that sends these items yields to its subscriber one result per item, in order: the item, or
   an error if it cannot be decoded - which, unlike in a notification, holds up nothing.  Whether the
   handler closes the sink makes no difference that the subscriber could see.
   */
  lemma {:induction false} SinkReachesSubscriber<P, T>(decode: P -> Option<T>, established: Frame<P>, items: seq<P>)
    requires established.Message? && established.msg.Established?
    ensures var fs := [established] + DataFrames(items);
            && Yields(decode, fs + [Message(Stopped)]) == Yields(decode, fs) == Results(decode, items)
            && !HasEnd(decode, fs)
  {
    var fs := [established] + DataFrames(items);
    if items == [] {
      assert fs == [established] && Yields(decode, [established][1..]) == [];
    } else {
      var init, last := items[..|items| - 1], items[|items| - 1];
      SinkReachesSubscriber(decode, established, init);
      assert fs == ([established] + DataFrames(init)) + [Message(Data(last))];
      OneMoreTaken(decode, [established] + DataFrames(init), Message(Data(last)));
    }
    OneMoreTaken(decode, fs, Message(Stopped));
  }

  datatype SinkError = Send

  /** `SubscriptionSink`.  `inner` holds the frames written, `room` how many more the stream will take before
      a write fails. */
  class SubscriptionSink<P(==)> {
    var inner: seq<Frame<P>>
    var room: nat

    constructor (established: Frame<P>, room: nat)
      ensures inner == [established] && this.room == room
    {
      inner, this.room := [established], room;
    }

    method Write(f: Frame<P>) returns (r: Result<(), SinkError>)
      modifies this
      ensures r.Ok? <==> 0 < old(room)
      ensures if r.Ok? then inner == old(inner) + [f] && room == old(room) - 1 else inner == old(inner) && room == 0
    {
      if room == 0 {
        return Err(SinkError.Send);
      }
      inner, room := inner + [f], room - 1;
      r := Ok(());
    }

    method Send(data: P) returns (r: Result<(), SinkError>)
      modifies this
      ensures r.Ok? <==> 0 < old(room)
      ensures if r.Ok? then inner == old(inner) + [Message(Data(data))] && room == old(room) - 1
              else inner == old(inner) && room == 0
    {
      r := Write(Message(Data(data)));
    }

    method Close() returns (r: Result<(), SinkError>)
      modifies this
      ensures r.Ok? <==> 0 < old(room)
      ensures inner == old(inner) + if r.Ok? then [Message(Stopped)] else []
    {
      r := Write(Message(Stopped));
    }

    /** A handler that sends these items and closes the sink, leaving at the first error.  Its subscriber
        gets one result for each item sent before the stream broke, if it did, and for no other. */
    method Publish<T>(items: seq<P>, ghost decode: P -> Option<T>) returns (r: Result<(), SinkError>)
      requires |inner| == 1 && inner[0].Message? && inner[0].msg.Established?
      modifies this
      ensures r.Ok? <==> |items| < old(room)
      ensures r.Ok? ==> inner == old(inner) + DataFrames(items) + [Message(Stopped)]
      ensures r.Err? ==> inner == old(inner) + DataFrames(items[..old(room)])
      ensures Yields(decode, inner) == Results(decode, if r.Ok? then items else items[..old(room)])
    {
      ghost var established := inner[0];
      assert inner == [established];
      for i := 0 to |items|
        invariant i <= old(room) && room == old(room) - i
        invariant inner == [established] + DataFrames(items[..i])
      {
        r := Send(items[i]);
        if r.Err? {
          SinkReachesSubscriber(decode, established, items[..i]);
          return;
        }
        assert items[..i + 1][..i] == items[..i];
      }
      assert items[..|items|] == items;
      SinkReachesSubscriber(decode, established, items);
      r := Close();
    }
  }
}
