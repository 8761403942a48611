/**
 The notification protocol: a client pushes items over a stream opened by the server and waits for an
 acknowledgment after each (zel_core/src/protocol/client.rs, zel_macros/src/render/types.rs,
 zel_core/src/protocol/handlers/notification.rs, zel_core/src/protocol/streaming.rs).

 `P` is the type of serialized payloads and `T` the item type of the receiver; `decode` is the
 receiver's deserialization, about which nothing is assumed.  Frames arrive whole and in order.
 */
module Notification {
  import opened Wrappers

  datatype Msg<P> =
    | Established(service: string, resource: string)
    | Data(data: P)
    | Ack
    | Error(message: string)
    | Completed
    | ServerShutdown

  datatype Frame<P> = Malformed | Message(msg: Msg<P>)

  // ---------------------------------------------------------------------------------------------
  // What each side makes of one frame
  // ---------------------------------------------------------------------------------------------

  datatype ReceiveError = Receive | Deserialization | Send

  /** What one iteration of the loop in the receiver's `next` does with a frame. */
  datatype Reaction<T> =
    | Skip
    | Deliver(item: T)   // acknowledge, then return the item
    | Fail               // return a deserialization error, without acknowledgment
    | Stop               // return None

  function React<P, T>(decode: P -> Option<T>, f: Frame<P>): Reaction<T> {
    match f
    case Malformed => Fail
    case Message(Data(p)) =>
      (match decode(p)
       case None => Fail
       case Some(item) => Deliver(item))
    case Message(Completed) => Stop
    case Message(ServerShutdown) => Stop
    case Message(_) => Skip
  }

  datatype SendError =
    | Connection
    | NoAcknowledgment
    | Serialization
    | ServerError(message: string)
    | UnexpectedMessage

  /** How `send` reads the frame it takes for its acknowledgment. */
  function OnAck<P>(f: Frame<P>): Result<(), SendError> {
    match f
    case Malformed => Err(Serialization)
    case Message(Ack) => Ok(())
    case Message(Error(m)) => Err(ServerError(m))
    case Message(_) => Err(UnexpectedMessage)
  }

  // ---------------------------------------------------------------------------------------------
  // One session as a step system
  // ---------------------------------------------------------------------------------------------

  datatype Client =
    | Connecting   // request sent, response awaited
    | Opening      // response received, Established awaited on the new stream
    | Idle
    | Awaiting     // inside `send`: item written, acknowledgment awaited
    | Refused      // `notify` returned an error
    | Done         // sender consumed by `complete`, or dropped

  datatype Server<T> =
    | Requested           // `handle_notification` entered
    | Opened              // stream opened
    | EstablishedSent
    | Receiving           // task spawned; the handler's next move is a call of `next`, or to end
    | Acking(item: T)     // inside `next`: item decoded, acknowledgment still to be written
    | Ended

  /**
   `up` and `down` are the frames in flight on the notification stream, `response` those on the request
   stream.  The rest is history: `sent` the payloads written by `send`, `okSends` the sends that
   returned Ok and `failedSends` those that returned an error after writing; `consumed` the payloads
   taken out by the receiver and `returned` what `next` made of each (None: an error); `ends` how often
   `next` returned None.
   */
  datatype Session<P, T> = Session(
    client: Client, server: Server<T>, response: seq<bool>,
    up: seq<Frame<P>>, upClosed: bool, down: seq<Frame<P>>,
    sent: seq<P>, okSends: nat, failedSends: nat,
    consumed: seq<P>, returned: seq<Option<T>>, ends: nat)

  function Init<P, T>(): Session<P, T> {
    Session(Connecting, Requested, [], [], false, [], [], 0, 0, [], [], 0)
  }

  datatype Event<P> =
    // server handshake
    | OpenStream
    | SendEstablished
    | SendResponse
    | RefuseRequest              // opening the stream or sending Established failed
    | LoseResponse               // sending the response failed
    // client
    | ReadResponse
    | MissResponse               // the request stream ended or failed
    | ReadEstablished
    | MissEstablished
    | SendData(p: P)
    | ReadAck
    | MissAck                    // the stream ended or failed
    | Complete
    | DropSender
    | Intrude(f: Frame<P>)       // a peer that writes frames of its own
    // server task
    | ReadFrame
    | ReadEnd
    | FailRead
    | SendAck
    | FailAck
    | Leave

  function Step<P, T>(decode: P -> Option<T>, key: Key, s: Session<P, T>, e: Event<P>): Option<Session<P, T>> {
    match e
    case OpenStream => if s.server.Requested? then Some(s.(server := Opened)) else None
    case SendEstablished =>
      if s.server.Opened? then
        Some(s.(server := EstablishedSent, down := s.down + [Message(Established(key.service, key.resource))]))
      else None
    case SendResponse =>
      if s.server.EstablishedSent? then Some(s.(server := Receiving, response := s.response + [true])) else None
    case RefuseRequest =>
      if s.server.Requested? || s.server.Opened? then
        Some(s.(server := Ended, response := s.response + [false]))
      else None
    case LoseResponse => if s.server.EstablishedSent? then Some(s.(server := Ended)) else None

    case ReadResponse =>
      if s.client.Connecting? && s.response != [] then
        Some(s.(client := if s.response[0] then Opening else Refused, response := s.response[1..]))
      else None
    case MissResponse => if s.client.Connecting? then Some(s.(client := Refused)) else None
    case ReadEstablished =>
      if s.client.Opening? && s.down != [] then
        var ok := s.down[0] == Message(Established(key.service, key.resource));
        Some(s.(client := if ok then Idle else Refused, down := s.down[1..]))
      else None
    case MissEstablished => if s.client.Opening? then Some(s.(client := Refused)) else None
    case SendData(p) =>
      if s.client.Idle? then
        Some(s.(client := Awaiting, up := s.up + [Message(Data(p))], sent := s.sent + [p]))
      else None
    case ReadAck =>
      if s.client.Awaiting? && s.down != [] then
        var t := s.(client := Idle, down := s.down[1..]);
        Some(if OnAck(s.down[0]).Ok? then t.(okSends := s.okSends + 1) else t.(failedSends := s.failedSends + 1))
      else None
    case MissAck =>
      if s.client.Awaiting? then Some(s.(client := Idle, failedSends := s.failedSends + 1)) else None
    case Complete =>
      if s.client.Idle? then
        Some(s.(client := Done, up := s.up + [Message(Completed)], upClosed := true))
      else None
    case DropSender => if s.client.Idle? then Some(s.(client := Done, upClosed := true)) else None
    case Intrude(f) =>
      if s.client.Idle? && !(f.Message? && f.msg.Data?) then Some(s.(up := s.up + [f])) else None

    case ReadFrame =>
      if s.server.Receiving? && s.up != [] then
        var f := s.up[0];
        var t := s.(up := s.up[1..], consumed := s.consumed + if f.Message? && f.msg.Data? then [f.msg.data] else []);
        match React(decode, f)
        case Skip => Some(t)
        case Deliver(item) => Some(t.(server := Acking(item)))
        case Fail => Some(if f.Malformed? then t else t.(returned := s.returned + [None]))
        case Stop => Some(t.(ends := s.ends + 1))
      else None
    case ReadEnd =>
      if s.server.Receiving? && s.up == [] && s.upClosed then Some(s.(ends := s.ends + 1)) else None
    case FailRead => if s.server.Receiving? then Some(s) else None
    case SendAck =>
      if s.server.Acking? then
        Some(s.(server := Receiving, down := s.down + [Message(Ack)], returned := s.returned + [Some(s.server.item)]))
      else None
    case FailAck =>
      if s.server.Acking? then Some(s.(server := Receiving, returned := s.returned + [None])) else None
    case Leave => if s.server.Receiving? then Some(s.(server := Ended)) else None
  }

  function Run<P, T>(decode: P -> Option<T>, key: Key, es: seq<Event<P>>): Option<Session<P, T>> {
    if es == [] then Some(Init())
    else
      var p := Run(decode, key, es[..|es| - 1]);
      if p.None? then None else Step(decode, key, p.value, es[|es| - 1])
  }

  // ---------------------------------------------------------------------------------------------
  // Safety over every run
  // ---------------------------------------------------------------------------------------------

  function DataIn<P>(fs: seq<Frame<P>>): seq<P> {
    if fs == [] then []
    else (if fs[0].Message? && fs[0].msg.Data? then [fs[0].msg.data] else []) + DataIn(fs[1..])
  }

  function AcksIn<P>(fs: seq<Frame<P>>): nat {
    if fs == [] then 0 else (if fs[0] == Message(Ack) then 1 else 0) + AcksIn(fs[1..])
  }

  function CountSome<T>(xs: seq<Option<T>>): (n: nat)
    ensures n <= |xs|
  {
    if xs == [] then 0 else CountSome(xs[..|xs| - 1]) + if xs[|xs| - 1].Some? then 1 else 0
  }

  lemma {:induction false} DataInAppend<P>(fs: seq<Frame<P>>, f: Frame<P>)
    ensures DataIn(fs + [f]) == DataIn(fs) + if f.Message? && f.msg.Data? then [f.msg.data] else []
  {
    if fs == [] {
      assert fs + [f] == [f] && [f][1..] == [];
    } else {
      assert (fs + [f])[1..] == fs[1..] + [f];
      DataInAppend(fs[1..], f);
    }
  }

  lemma {:induction false} AcksInAppend<P>(fs: seq<Frame<P>>, f: Frame<P>)
    ensures AcksIn(fs + [f]) == AcksIn(fs) + if f == Message(Ack) then 1 else 0
  {
    if fs == [] {
      assert fs + [f] == [f] && [f][1..] == [];
    } else {
      assert (fs + [f])[1..] == fs[1..] + [f];
      AcksInAppend(fs[1..], f);
    }
  }

  lemma DataInHead<P>(fs: seq<Frame<P>>)
    requires fs != []
    ensures DataIn(fs) == (if fs[0].Message? && fs[0].msg.Data? then [fs[0].msg.data] else []) + DataIn(fs[1..])
  {
  }

  lemma OneFrame<P>(f: Frame<P>)
    ensures DataIn([f]) == if f.Message? && f.msg.Data? then [f.msg.data] else []
    ensures AcksIn([f]) == if f == Message(Ack) then 1 else 0
    ensures [f][1..] == []
  {
  }

  lemma CountSomeAppend<T>(xs: seq<Option<T>>, x: Option<T>)
    ensures CountSome(xs + [x]) == CountSome(xs) + if x.Some? then 1 else 0
  {
    assert (xs + [x])[..|xs|] == xs;
  }

  function Pending<P, T>(s: Session<P, T>): nat {
    if s.server.Acking? then 1 else 0
  }

  /** What `next` made of the k-th payload taken is the item it encodes, or an error. */
  ghost predicate Decoded<P, T>(decode: P -> Option<T>, consumed: seq<P>, returned: seq<Option<T>>) {
    && |returned| <= |consumed|
    && forall i :: 0 <= i < |returned| && returned[i].Some? ==> returned[i] == decode(consumed[i])
  }

  lemma DecodedOneMore<P, T>(decode: P -> Option<T>, consumed: seq<P>, returned: seq<Option<T>>, x: Option<T>)
    requires Decoded(decode, consumed, returned) && |returned| < |consumed|
    requires x.Some? ==> x == decode(consumed[|returned|])
    ensures Decoded(decode, consumed, returned + [x])
  {
  }

  lemma DecodedConsume<P, T>(decode: P -> Option<T>, consumed: seq<P>, returned: seq<Option<T>>, more: seq<P>)
    requires Decoded(decode, consumed, returned)
    ensures Decoded(decode, consumed + more, returned)
  {
  }

  /** Every payload sent is in flight or was taken out, in order; each taken out led to the item it
      encodes or to an error; acknowledgments and Ok sends balance the items returned. */
  ghost predicate Safe<P, T>(decode: P -> Option<T>, s: Session<P, T>) {
    && s.sent == s.consumed + DataIn(s.up)
    && |s.consumed| == |s.returned| + Pending(s)
    && (s.server.Acking? ==> decode(s.consumed[|s.returned|]) == Some(s.server.item))
    && Decoded(decode, s.consumed, s.returned)
    && s.okSends + AcksIn(s.down) == CountSome(s.returned)
    && |s.sent| == s.okSends + s.failedSends + (if s.client.Awaiting? then 1 else 0)
    && (s.client.Connecting? || s.client.Opening? ==> s.sent == [])
  }

  lemma SafeReadData<P, T>(decode: P -> Option<T>, key: Key, s: Session<P, T>)
    requires Safe(decode, s) && Step(decode, key, s, ReadFrame).Some?
    requires s.up[0].Message? && s.up[0].msg.Data?
    ensures Safe(decode, Step(decode, key, s, ReadFrame).value)
  {
    hide Decoded, DataIn, AcksIn, CountSome;
    DataInHead(s.up);
    var p := s.up[0].msg.data;
    var t := Step(decode, key, s, ReadFrame).value;
    assert s.sent == (s.consumed + [p]) + DataIn(s.up[1..]);
    assert t.consumed == s.consumed + [p];
    DecodedConsume(decode, s.consumed, s.returned, [p]);
    if decode(p).None? {
      DecodedOneMore(decode, t.consumed, s.returned, None);
      CountSomeAppend(s.returned, None);
    }
  }

  lemma SafeReadOther<P, T>(decode: P -> Option<T>, key: Key, s: Session<P, T>)
    requires Safe(decode, s) && Step(decode, key, s, ReadFrame).Some?
    requires !(s.up[0].Message? && s.up[0].msg.Data?)
    ensures Safe(decode, Step(decode, key, s, ReadFrame).value)
  {
    hide Decoded, DataIn, AcksIn, CountSome;
    var t := Step(decode, key, s, ReadFrame).value;
    assert t.consumed == s.consumed && t.returned == s.returned;
    DataInHead(s.up);
  }

  /** Events that leave payloads, acknowledgments and their history as they are. */
  lemma SafeQuietStep<P, T>(decode: P -> Option<T>, key: Key, s: Session<P, T>, e: Event<P>)
    requires Safe(decode, s) && Step(decode, key, s, e).Some?
    requires e.OpenStream? || e.SendResponse? || e.RefuseRequest? || e.LoseResponse? || e.ReadResponse?
             || e.MissResponse? || e.MissEstablished? || e.ReadEnd? || e.FailRead? || e.Leave? || e.DropSender?
    ensures Safe(decode, Step(decode, key, s, e).value)
  {
    hide Decoded, DataIn, AcksIn, CountSome;
  }

  lemma SafeEstablished<P, T>(decode: P -> Option<T>, key: Key, s: Session<P, T>, e: Event<P>)
    requires Safe(decode, s) && Step(decode, key, s, e).Some?
    requires e.SendEstablished? || e.ReadEstablished?
    ensures Safe(decode, Step(decode, key, s, e).value)
  {
    hide Decoded, DataIn, CountSome;
    if e.SendEstablished? {
      AcksInAppend(s.down, Message(Established(key.service, key.resource)));
    }
  }

  lemma SafeSendAck<P, T>(decode: P -> Option<T>, key: Key, s: Session<P, T>)
    requires Safe(decode, s) && Step(decode, key, s, SendAck).Some?
    ensures Safe(decode, Step(decode, key, s, SendAck).value)
  {
    hide Decoded, DataIn, AcksIn, CountSome;
    AcksInAppend(s.down, Message(Ack));
    CountSomeAppend(s.returned, Some(s.server.item));
    DecodedOneMore(decode, s.consumed, s.returned, Some(s.server.item));
  }

  lemma SafeFailAck<P, T>(decode: P -> Option<T>, key: Key, s: Session<P, T>)
    requires Safe(decode, s) && Step(decode, key, s, FailAck).Some?
    ensures Safe(decode, Step(decode, key, s, FailAck).value)
  {
    hide Decoded, DataIn, AcksIn, CountSome;
    CountSomeAppend(s.returned, None);
    DecodedOneMore(decode, s.consumed, s.returned, None);
  }

  lemma SafeClientStep<P, T>(decode: P -> Option<T>, key: Key, s: Session<P, T>, e: Event<P>)
    requires Safe(decode, s) && Step(decode, key, s, e).Some?
    requires e.SendData? || e.Complete? || e.Intrude?
    ensures Safe(decode, Step(decode, key, s, e).value)
  {
    hide Decoded, DataIn, AcksIn, CountSome;
    match e {
      case SendData(p) => DataInAppend(s.up, Message(Data(p)));
      case Complete => DataInAppend(s.up, Message(Completed));
      case Intrude(f) => DataInAppend(s.up, f);
    }
  }

  lemma SafeAckStep<P, T>(decode: P -> Option<T>, key: Key, s: Session<P, T>, e: Event<P>)
    requires Safe(decode, s) && Step(decode, key, s, e).Some?
    requires e.ReadAck? || e.MissAck?
    ensures Safe(decode, Step(decode, key, s, e).value)
  {
    hide Decoded, DataIn, CountSome;
  }

  lemma SafeStep<P, T>(decode: P -> Option<T>, key: Key, s: Session<P, T>, e: Event<P>)
    requires Safe(decode, s) && Step(decode, key, s, e).Some?
    ensures Safe(decode, Step(decode, key, s, e).value)
  {
    hide Safe;
    match e {
      case ReadFrame =>
        if s.up[0].Message? && s.up[0].msg.Data? {
          SafeReadData(decode, key, s);
        } else {
          SafeReadOther(decode, key, s);
        }
      case SendAck => SafeSendAck(decode, key, s);
      case FailAck => SafeFailAck(decode, key, s);
      case SendData(_) => SafeClientStep(decode, key, s, e);
      case Complete => SafeClientStep(decode, key, s, e);
      case Intrude(_) => SafeClientStep(decode, key, s, e);
      case ReadAck => SafeAckStep(decode, key, s, e);
      case MissAck => SafeAckStep(decode, key, s, e);
      case SendEstablished => SafeEstablished(decode, key, s, e);
      case ReadEstablished => SafeEstablished(decode, key, s, e);
      case _ => SafeQuietStep(decode, key, s, e);
    }
  }

  lemma {:induction false} RunIsSafe<P, T>(decode: P -> Option<T>, key: Key, es: seq<Event<P>>)
    requires Run(decode, key, es).Some?
    ensures Safe(decode, Run(decode, key, es).value)
  {
    hide Step;
    if es != [] {
      RunIsSafe(decode, key, es[..|es| - 1]);
      SafeStep(decode, key, Run(decode, key, es[..|es| - 1]).value, es[|es| - 1]);
    }
  }

  ghost predicate Accepted<P, T>(es: seq<Event<P>>, s: Session<P, T>) {
    && (true in s.response || !(s.client.Connecting? || s.client.Refused?) ==> SendResponse in es)
    && (SendResponse in es ==> s.server.Receiving? || s.server.Acking? || s.server.Ended?)
    && (RefuseRequest in es ==> s.server.Ended? && SendResponse !in es)
  }

  lemma AcceptedStep<P, T>(decode: P -> Option<T>, key: Key, es: seq<Event<P>>, s: Session<P, T>, e: Event<P>)
    requires Accepted(es, s) && Step(decode, key, s, e).Some?
    ensures Accepted(es + [e], Step(decode, key, s, e).value)
  {
    var all := es + [e];
    assert forall x :: x in all <==> x in es || x == e;
    assert s.response != [] ==> s.response == [s.response[0]] + s.response[1..];
  }

  /** In every run the client gets a sender only if the server accepted the request: announced the stream and
      then said so.  A request that was refused never does. */
  lemma {:induction false} SenderOnlyIfAccepted<P, T>(decode: P -> Option<T>, key: Key, es: seq<Event<P>>)
    requires Run(decode, key, es).Some?
    ensures var s := Run(decode, key, es).value;
            && Accepted(es, s)
            && (s.client.Idle? || s.client.Awaiting? || s.client.Done? ==> SendResponse in es && RefuseRequest !in es)
  {
    hide Step;
    if es != [] {
      SenderOnlyIfAccepted(decode, key, es[..|es| - 1]);
      AcceptedStep(decode, key, es[..|es| - 1], Run(decode, key, es[..|es| - 1]).value, es[|es| - 1]);
      assert es == es[..|es| - 1] + [es[|es| - 1]];
    }
  }

  /** What can go wrong before there is a sender, and a frame of another kind put in by a peer. */
  lemma Mishaps<P, T>(decode: P -> Option<T>, key: Key, s: Session<P, T>, f: Frame<P>)
    ensures s.client.Connecting? ==> Step(decode, key, s, MissResponse) == Some(s.(client := Refused))
    ensures s.client.Opening? ==> Step(decode, key, s, MissEstablished) == Some(s.(client := Refused))
    ensures s.server.Requested? || s.server.Opened? ==>
              Step(decode, key, s, RefuseRequest) == Some(s.(server := Ended, response := s.response + [false]))
    ensures s.server.EstablishedSent? ==> Step(decode, key, s, LoseResponse) == Some(s.(server := Ended))
    ensures s.client.Idle? && !(f.Message? && f.msg.Data?) ==>
              Step(decode, key, s, Intrude(f)) == Some(s.(up := s.up + [f]))
  {
  }

  /** The items returned by `next`, in order. */
  function Delivered<T>(returned: seq<Option<T>>): seq<T> {
    if returned == [] then []
    else Delivered(returned[..|returned| - 1]) +
         match returned[|returned| - 1] case None => [] case Some(item) => [item]
  }

  lemma {:induction false} DeliveredLength<T>(returned: seq<Option<T>>)
    ensures |Delivered(returned)| == CountSome(returned)
    ensures CountSome(returned) == |returned| ==>
              forall i :: 0 <= i < |returned| ==> returned[i] == Some(Delivered(returned)[i])
  {
    if returned != [] {
      DeliveredLength(returned[..|returned| - 1]);
    }
  }

  /**
   In every run: the k-th payload taken by the receiver is the k-th sent and gives the item it encodes
   or an error, so that as long as `next` has returned no error the items delivered are those of a
   prefix of what was sent; sends that returned Ok never outnumber the items delivered, which
   outnumber them by at most one for the send under way and one for each send that failed after
   writing; and so many items and acknowledgments, at most, are in flight.
   */
  lemma StopAndWait<P, T>(decode: P -> Option<T>, key: Key, es: seq<Event<P>>)
    requires Run(decode, key, es).Some?
    ensures var s := Run(decode, key, es).value;
            var delivered := Delivered(s.returned);
            && s.consumed <= s.sent
            && (CountSome(s.returned) == |s.returned| ==>
                  && |delivered| <= |s.sent|
                  && forall i :: 0 <= i < |delivered| ==> decode(s.sent[i]) == Some(delivered[i]))
            && s.okSends <= |delivered| <= s.okSends + s.failedSends + 1
            && |s.consumed| <= s.okSends + s.failedSends + 1
            && |DataIn(s.up)| + AcksIn(s.down) <= s.failedSends + 1
  {
    RunIsSafe(decode, key, es);
    var s := Run(decode, key, es).value;
    DeliveredLength(s.returned);
    assert s.consumed == s.sent[..|s.consumed|];
    assert forall i :: 0 <= i < |s.consumed| ==> s.consumed[i] == s.sent[i];
  }
}
